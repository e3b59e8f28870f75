/** Status writes in place, the snapshot they are compared with, and the cached config a reconcile must not reach. */
module Snapshot {
  import opened Kube
  import opened Api
  import opened StatusWrites
  import opened Heap

  // ---- status writes

  /** Setting a condition overwrites the first of its type, or appends. */
  lemma {:induction false} SetConditionAt(cs: seq<Condition>, c: Condition, now: int, i: nat)
    requires i <= |cs| && forall j | 0 <= j < i :: cs[j].kind != c.kind
    requires i < |cs| ==> cs[i].kind == c.kind
    ensures SetCondition(cs, c, now) == if i < |cs| then cs[i := Refreshed(cs[i], c, now)]
        else cs + [c.(lastTransition := now)]
  {
    if cs != [] && i > 0 {
      SetConditionAt(cs[1..], c, now, i - 1);
      if i < |cs| {
        assert cs[i := Refreshed(cs[i], c, now)] == [cs[0]] + cs[1..][i - 1 := Refreshed(cs[i], c, now)];
      } else {
        assert cs + [c.(lastTransition := now)] == [cs[0]] + (cs[1..] + [c.(lastTransition := now)]);
      }
    } else if cs != [] {
      assert cs[0 := Refreshed(cs[0], c, now)] == [Refreshed(cs[0], c, now)] + cs[1..];
    }
  }

  /** The array behind a slice, with room for one more element after the first `count`. */
  method Grown(a: array<Condition>, count: nat, last: Condition) returns (b: array<Condition>)
    requires count == a.Length
    ensures fresh(b) && b.Length > count && b[..count] == old(a[..]) && b[count] == last
  {
    b := new Condition[2 * count + 1](_ => last);
    for i := 0 to count
      invariant b[..i] == a[..i] && b[count] == last
    {
      b[i] := a[i];
    }
    assert a[..count] == a[..];
  }

  /** meta.SetStatusCondition, on the slice in place: an existing condition is overwritten where it is, a new one goes
      into spare room if there is any. */
  method SetStatusCondition(obj: OtelCollectorService, c: Condition, now: int)
    requires obj.Valid()
    modifies obj`status, obj.status.conditions
    ensures obj.Valid() && (obj.status.conditions == old(obj.status.conditions) || fresh(obj.status.conditions))
    ensures old(Find(StatusValue(obj.status).conditions, c.kind)).Some? ==>
      obj.status.conditions == old(obj.status.conditions) && obj.status.count == old(obj.status.count)
    ensures var was := old(StatusValue(obj.status));
      StatusValue(obj.status) == was.(conditions := SetCondition(was.conditions, c, now))
  {
    var a, count := obj.status.conditions, obj.status.count;
    ghost var cs := a[..count];
    var i := 0;
    while i < count && a[i].kind != c.kind
      invariant 0 <= i <= count && forall j | 0 <= j < i :: cs[j].kind != c.kind
      invariant obj.status == old(obj.status) && a[..count] == cs
    {
      i := i + 1;
    }
    SetConditionAt(cs, c, now, i);
    if i < count {
      var since := if a[i].status == c.status then a[i].lastTransition else now;
      a[i] := c.(lastTransition := since);
      assert a[..count] == cs[i := Refreshed(cs[i], c, now)];
    } else {
      var last := c.(lastTransition := now);
      if count < a.Length {
        a[count] := last;
        obj.status := obj.status.(count := count + 1);
        assert a[..count + 1] == cs + [last];
      } else {
        assert a[..] == cs;
        var b := Grown(a, count, last);
        obj.status := obj.status.(conditions := b, count := count + 1);
        assert b[..count + 1] == cs + [last];
      }
    }
  }

  datatype StatusWrite =
    | WriteProgressing(reason: string, message: string, now: int)
    | WriteReady(now: int)
    | WriteTerminating(now: int)

  function Written(st: Status, gen: nat, w: StatusWrite): Status {
    match w
    case WriteProgressing(reason, message, now) => Progressing(st, gen, reason, message, now)
    case WriteReady(now) => Ready(st, gen, now)
    case WriteTerminating(now) => Terminating(st, gen, now)
  }

  function AllWritten(st: Status, gen: nat, ws: seq<StatusWrite>): Status {
    if ws == [] then st else Written(AllWritten(st, gen, ws[..|ws| - 1]), gen, ws[|ws| - 1])
  }

  /** One of StatusProgressing, StatusReady and StatusTerminating on the live object. */
  method Apply(obj: OtelCollectorService, w: StatusWrite)
    requires obj.Valid()
    modifies obj`status, obj.status.conditions
    ensures obj.Valid() && (obj.status.conditions == old(obj.status.conditions) || fresh(obj.status.conditions))
    ensures old(Find(StatusValue(obj.status).conditions, READY)).Some? ==>
      obj.status.conditions == old(obj.status.conditions) && obj.status.count == old(obj.status.count)
    ensures StatusValue(obj.status) == Written(old(StatusValue(obj.status)), obj.meta.generation, w)
  {
    var gen := obj.meta.generation;
    match w {
      case WriteProgressing(reason, message, now) =>
        SetStatusCondition(obj, Condition(READY, False, gen, reason, message, 0), now);
        obj.status := obj.status.(observedGeneration := gen);
        obj.status := obj.status.(phase := PHASE_PROGRESSING);
      case WriteReady(now) =>
        SetStatusCondition(obj, Condition(READY, True, gen, "ReconcileSuccess", "Domain Service is ready", 0), now);
        obj.status := obj.status.(observedGeneration := gen);
        obj.status := obj.status.(phase := PHASE_READY);
      case WriteTerminating(now) =>
        SetStatusCondition(obj, Condition(READY, False, gen, "Terminating", "Cleanup in progress", 0), now);
        obj.status := obj.status.(observedGeneration := gen);
        obj.status := obj.status.(phase := PHASE_TERMINATING);
    }
  }

  // ---- updateStatus

  /** equality.Semantic.DeepEqual on two statuses. */
  method SameStatus(a: StatusFields, b: StatusFields) returns (same: bool)
    requires Slice(a) && Slice(b)
    ensures same <==> StatusValue(a) == StatusValue(b)
  {
    if a.count != b.count || a.observedGeneration != b.observedGeneration || a.phase != b.phase {
      assert |StatusValue(a).conditions| == a.count && |StatusValue(b).conditions| == b.count;
      return false;
    }
    for i := 0 to a.count
      invariant a.conditions[..i] == b.conditions[..i]
    {
      if a.conditions[i] != b.conditions[i] {
        assert StatusValue(a).conditions[i] != StatusValue(b).conditions[i];
        return false;
      }
    }
    return true;
  }

  /** updateStatus: a patch is issued exactly when the two statuses differ. */
  method UpdateStatus(newObj: OtelCollectorService, oldObj: OtelCollectorService) returns (issued: bool)
    requires newObj.Valid() && oldObj.Valid()
    ensures issued <==> StatusValue(newObj.status) != StatusValue(oldObj.status)
  {
    var same := SameStatus(oldObj.status, newObj.status);
    issued := !same;
  }

  /** The two objects share nothing a status write could touch. */
  ghost predicate Apart(live: OtelCollectorService, snapshot: OtelCollectorService)
    reads live, snapshot, snapshot.spec.resources
  {
    live !in snapshot.Repr() && live.status.conditions !in snapshot.Repr()
  }

  method ApplyApart(live: OtelCollectorService, w: StatusWrite, snapshot: OtelCollectorService)
    requires live.Valid() && snapshot.Valid() && Apart(live, snapshot)
    modifies live`status, live.status.conditions
    ensures live.Valid() && snapshot.Valid() && Apart(live, snapshot)
    ensures live.status.conditions == old(live.status.conditions) || fresh(live.status.conditions)
    ensures snapshot.Repr() == old(snapshot.Repr()) && snapshot.Value() == old(snapshot.Value())
    ensures StatusValue(live.status) == Written(old(StatusValue(live.status)), live.meta.generation, w)
  {
    Apply(live, w);
    ServiceUnmoved(snapshot);
  }

  method ApplyAll(live: OtelCollectorService, ws: seq<StatusWrite>, snapshot: OtelCollectorService)
    requires live.Valid() && snapshot.Valid() && Apart(live, snapshot)
    modifies live`status, live.status.conditions
    ensures live.Valid() && snapshot.Valid()
    ensures snapshot.Repr() == old(snapshot.Repr()) && snapshot.Value() == old(snapshot.Value())
    ensures StatusValue(live.status) == AllWritten(old(StatusValue(live.status)), live.meta.generation, ws)
  {
    ghost var st, kept, own := StatusValue(live.status), snapshot.Value(), snapshot.Repr();
    for i := 0 to |ws|
      invariant live.Valid() && snapshot.Valid() && Apart(live, snapshot)
      invariant live.status.conditions == old(live.status.conditions) || fresh(live.status.conditions)
      invariant snapshot.Repr() == own && snapshot.Value() == kept
      invariant StatusValue(live.status) == AllWritten(st, live.meta.generation, ws[..i])
    {
      assert ws[..i + 1][..i] == ws[..i];
      ApplyApart(live, ws[i], snapshot);
    }
    assert ws[..|ws|] == ws;
  }

  /** A reconcile's bookkeeping around its status writes. Whatever is written on the live object in place, the snapshot
      keeps the object as it was read, and a patch from it is issued exactly when the writes changed the status. */
  method WriteAndPatch(live: OtelCollectorService, ws: seq<StatusWrite>) returns (issued: bool,
      snapshot: OtelCollectorService)
    requires live.Valid()
    modifies live`status, live.status.conditions
    ensures live.Valid() && snapshot.Valid() && fresh(snapshot.Repr())
    ensures snapshot.Value() == old(live.Value())
    ensures StatusValue(live.status) == AllWritten(old(StatusValue(live.status)), live.meta.generation, ws)
    ensures var was := old(StatusValue(live.status));
      issued <==> AllWritten(was, live.meta.generation, ws) != was
  {
    snapshot := live.DeepCopy();
    ghost var st := live.Value().status;
    ApplyAll(live, ws, snapshot);
    assert StatusValue(snapshot.status) == snapshot.Value().status == st;
    issued := UpdateStatus(live, snapshot);
  }

  /** Anything at all may happen to this memory. */
  method Havoc(ghost reach: set<object>, bystander: OtelCollectorService)
    requires bystander.Valid() && reach !! bystander.Repr()
    modifies reach
    ensures bystander.Valid() && bystander.Repr() == old(bystander.Repr())
      && bystander.Value() == old(bystander.Value())
  {
    modify reach;
    ServiceUnmoved(bystander);
  }

  /** Stronger still: nothing at all done to memory the live object reaches can be seen in the snapshot. */
  method SnapshotSurvives(live: OtelCollectorService) returns (snapshot: OtelCollectorService)
    requires live.Valid()
    modifies live.Repr()
    ensures snapshot.Valid() && fresh(snapshot.Repr()) && snapshot.Value() == old(live.Value())
  {
    ghost var reach := live.Repr();
    assert forall o | o in reach :: allocated(o);
    snapshot := live.DeepCopy();
    assert reach !! snapshot.Repr();
    Havoc(reach, snapshot);
  }

  lemma ProgressingShows(st: Status, gen: nat, now: int)
    requires |st.conditions| == 1 && st.conditions[0].kind == READY && st.conditions[0].status == True
    ensures var cs := Progressing(st, gen, "", "", now).conditions; |cs| == 1 && cs[0].status == False
  {
  }

  /** A snapshot that is merely another struct on the same slices does not do: the write shows through it, and the
      change from Ready to Progressing is lost on it. */
  method SharedSliceHides(live: OtelCollectorService, now: int) returns (shallow: StatusFields)
    requires live.Valid() && live.status.count == 1 && live.status.conditions[0].kind == READY
    requires live.status.conditions[0].status == True
    modifies live`status, live.status.conditions
    ensures live.Valid() && Slice(shallow) && shallow == old(live.status)
    ensures StatusValue(shallow).conditions == StatusValue(live.status).conditions
    ensures StatusValue(shallow).conditions != old(StatusValue(live.status)).conditions
  {
    shallow := live.status;
    ghost var st := StatusValue(live.status);
    ProgressingShows(st, live.meta.generation, now);
    assert Find(st.conditions, READY).Some?;
    Apply(live, WriteProgressing("", "", now));
  }
}
