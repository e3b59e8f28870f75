/** The three coupled status writes, on values, and what they keep true of a status. */
module StatusWrites {
  import opened Kube
  import opened Api

  /** meta.FindStatusCondition: the first condition of a type. */
  function Find(cs: seq<Condition>, kind: string): (r: Option<Condition>)
    ensures r.None? <==> forall i | 0 <= i < |cs| :: cs[i].kind != kind
    ensures r.Some? ==> r.value in cs && r.value.kind == kind
  {
    if cs == [] then None else if cs[0].kind == kind then Some(cs[0]) else Find(cs[1..], kind)
  }

  function CountOf(cs: seq<Condition>, kind: string): nat {
    if cs == [] then 0 else (if cs[0].kind == kind then 1 else 0) + CountOf(cs[1..], kind)
  }

  /** The time of the last status change moves only when the status does. */
  function Refreshed(was: Condition, c: Condition, now: int): Condition {
    c.(lastTransition := if was.status == c.status then was.lastTransition else now)
  }

  /** meta.SetStatusCondition: overwrite the first condition of that type, or append one. */
  function SetCondition(cs: seq<Condition>, c: Condition, now: int): seq<Condition> {
    if cs == [] then [c.(lastTransition := now)]
    else if cs[0].kind == c.kind then [Refreshed(cs[0], c, now)] + cs[1..]
    else [cs[0]] + SetCondition(cs[1..], c, now)
  }

  function Write(st: Status, gen: nat, truth: Truth, reason: string, message: string, phase: string, now: int): Status {
    Status(SetCondition(st.conditions, Condition(READY, truth, gen, reason, message, 0), now), gen, phase)
  }

  function Progressing(st: Status, gen: nat, reason: string, message: string, now: int): Status {
    Write(st, gen, False, reason, message, PHASE_PROGRESSING, now)
  }

  function Ready(st: Status, gen: nat, now: int): Status {
    Write(st, gen, True, "ReconcileSuccess", "Domain Service is ready", PHASE_READY, now)
  }

  function Terminating(st: Status, gen: nat, now: int): Status {
    Write(st, gen, False, "Terminating", "Cleanup in progress", PHASE_TERMINATING, now)
  }

  /** A status this controller wrote: one Ready condition, true exactly in phase Ready, and one generation. */
  predicate Coherent(st: Status) {
    && CountOf(st.conditions, READY) == 1
    && var c := Find(st.conditions, READY);
    && c.Some?
    && c.value.observedGeneration == st.observedGeneration
    && (st.phase == PHASE_READY <==> c.value.status == True)
    && st.phase in {PHASE_READY, PHASE_PROGRESSING, PHASE_TERMINATING}
  }

  predicate CoherentOrNone(st: Status) {
    st == NO_STATUS || Coherent(st)
  }

  /** One status write sets the condition of its type, keeping the time stamp while the truth value stays, and
      never adds a second one. */
  lemma {:induction false} SetConditionEffect(cs: seq<Condition>, c: Condition, now: int)
    ensures Find(SetCondition(cs, c, now), c.kind) == Some(match Find(cs, c.kind)
                                                           case None => c.(lastTransition := now)
                                                           case Some(o) => c.(lastTransition :=
                                                             if o.status == c.status then o.lastTransition else now))
    ensures CountOf(SetCondition(cs, c, now), c.kind) == (if CountOf(cs, c.kind) == 0 then 1 else CountOf(cs, c.kind))
  {
    if cs != [] && cs[0].kind != c.kind {
      SetConditionEffect(cs[1..], c, now);
      assert SetCondition(cs, c, now)[1..] == SetCondition(cs[1..], c, now);
    }
  }

  /** Conditions of other types are left alone. */
  lemma {:induction false} SetConditionFrame(cs: seq<Condition>, c: Condition, now: int, kind: string)
    requires kind != c.kind
    ensures Find(SetCondition(cs, c, now), kind) == Find(cs, kind)
    ensures CountOf(SetCondition(cs, c, now), kind) == CountOf(cs, kind)
  {
    if cs != [] && cs[0].kind != c.kind {
      SetConditionFrame(cs[1..], c, now, kind);
      assert SetCondition(cs, c, now)[1..] == SetCondition(cs[1..], c, now);
    } else if cs != [] {
      assert SetCondition(cs, c, now)[1..] == cs[1..];
    }
  }

  /** Any of the three writes, on any status the controller can have left, gives a coherent status at `gen`. */
  lemma WriteCoherent(st: Status, gen: nat, truth: Truth, reason: string, message: string, phase: string, now: int)
    requires CoherentOrNone(st)
    requires phase == PHASE_READY <==> truth == True
    requires phase in {PHASE_READY, PHASE_PROGRESSING, PHASE_TERMINATING}
    ensures var r := Write(st, gen, truth, reason, message, phase, now);
      Coherent(r) && r.observedGeneration == gen && r.phase == phase
  {
    SetConditionEffect(st.conditions, Condition(READY, truth, gen, reason, message, 0), now);
  }

  /** Two statuses that differ at most in when their conditions last changed. */
  predicate SameButTime(a: Status, b: Status) {
    && |a.conditions| == |b.conditions|
    && a.observedGeneration == b.observedGeneration && a.phase == b.phase
    && forall i | 0 <= i < |a.conditions| ::
         a.conditions[i] == b.conditions[i].(lastTransition := a.conditions[i].lastTransition)
  }

  /** Rewriting the Ready condition as false and then as true again moves only its time stamp. */
  lemma {:induction false} RewriteTwice(cs: seq<Condition>, c0: Condition, c1: Condition, t0: int, t1: int)
    requires c0.kind == READY == c1.kind && c0.status == False && c1.status == True
    requires Find(cs, READY).Some? && Find(cs, READY).value.(lastTransition := 0) == c1.(lastTransition := 0)
    ensures var r := SetCondition(SetCondition(cs, c0, t0), c1, t1);
      && |r| == |cs|
      && (forall i | 0 <= i < |cs| :: cs[i] == r[i].(lastTransition := cs[i].lastTransition))
      && Find(r, READY) == Some(c1.(lastTransition := t1))
  {
    if cs[0].kind != READY {
      RewriteTwice(cs[1..], c0, c1, t0, t1);
      var mid := SetCondition(cs, c0, t0);
      assert mid[1..] == SetCondition(cs[1..], c0, t0);
      var r := SetCondition(mid, c1, t1);
      assert r == [cs[0]] + SetCondition(mid[1..], c1, t1);
    }
  }

  /** A pass over an object that is already Ready at this generation writes Progressing and then Ready again:
      nothing changes but the time stamp, and that always moves to the time of the last write. */
  lemma ReadyPassIdempotent(st: Status, gen: nat, reason: string, message: string, t0: int, t1: int)
    requires st.observedGeneration == gen && st.phase == PHASE_READY && Find(st.conditions, READY).Some?
    requires Find(st.conditions, READY).value.(lastTransition := 0)
      == Condition(READY, True, gen, "ReconcileSuccess", "Domain Service is ready", 0)
    ensures var r := Ready(Progressing(st, gen, reason, message, t0), gen, t1);
      SameButTime(st, r) && Find(r.conditions, READY) == Some(Find(st.conditions, READY).value.(lastTransition := t1))
  {
    RewriteTwice(st.conditions, Condition(READY, False, gen, reason, message, 0),
                 Condition(READY, True, gen, "ReconcileSuccess", "Domain Service is ready", 0), t0, t1);
  }
}
