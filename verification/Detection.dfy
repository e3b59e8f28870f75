/** From an edit of the user's data to the pods: what two Ready statuses of one run say about the
    Deployments behind them. */
module Detection {
  import opened Kube
  import opened Api
  import opened Desired
  import opened Digest
  import opened Machine
  import ReadyRuns

  /** A Ready status in the log of a run, and what backs it. */
  ghost predicate ReadyEntry(log: seq<Entry>, j: nat, ev: Evidence) {
    && j < |log| && log[j].act.StatusPut? && log[j].act.status.phase == PHASE_READY && log[j].act.evidence == Some(ev)
  }

  function DigestOf(d: Deployment): Option<string> {
    if HASH_ANNOTATION in d.annotations then Some(d.annotations[HASH_ANNOTATION]) else None
  }

  /** The part of a Deployment that decides whether pods are replaced, as far as the controller sets it. */
  function Template(d: Deployment): (Labels, Option<string>, seq<string>, seq<string>, seq<Container>) {
    (d.templateLabels, DigestOf(d), d.pullSecrets, d.volumes, d.containers)
  }

  lemma ReadyTemplate(w: World, es: seq<Event>, j: nat, ev: Evidence)
    requires Initial(w) && ReadyEntry(Run(w, es).s.history.log, j, ev)
    ensures Meets(ev.deployment, ReadyRuns.Wanted(ev))
    ensures HASH_ANNOTATION in ev.deployment.annotations
    ensures ev.deployment.annotations[HASH_ANNOTATION] == ConfigHash(ev.cm, ev.secret)
  {
    ReadyRuns.ReadyIsEarned(w, es);
    var log := Run(w, es).s.history.log;
    assert ReadyRuns.Earned(log[..j], log[j]);
    hide Run, ReadyRuns.AllEarned;
  }

  /** Two Ready statuses of one run, whose passes read data one edit apart: their pod templates carry different digests
      if and only if the edit is a visible one. The hash is only asked to separate the two inputs. */
  lemma EditReachesPods(w: World, es: seq<Event>, j1: nat, ev1: Evidence, j2: nat, ev2: Evidence, e: Edit)
    requires Initial(w)
    requires ReadyEntry(Run(w, es).s.history.log, j1, ev1) && ReadyEntry(Run(w, es).s.history.log, j2, ev2)
    requires Separates(Hashed(ev2.cm, ev2.secret), Hashed(ev1.cm, ev1.secret))
    ensures ev2.cm == Apply(ev1.cm, e) && ev2.secret == ev1.secret ==>
      (DigestOf(ev1.deployment) != DigestOf(ev2.deployment) <==> !Invisible(ev1.cm, e))
    ensures ev2.cm == ev1.cm && ev2.secret == Apply(ev1.secret, e) ==>
      (DigestOf(ev1.deployment) != DigestOf(ev2.deployment) <==> !Invisible(ev1.secret, e))
  {
    ReadyTemplate(w, es, j1, ev1);
    ReadyTemplate(w, es, j2, ev2);
    hide Run, Meets, ReadyRuns.Wanted;
    if ev2.cm == Apply(ev1.cm, e) && ev2.secret == ev1.secret {
      EditChanges(ev1.cm, e);
      if Hashed(ev2.cm, ev2.secret) == Hashed(ev1.cm, ev1.secret) {
        SameTail(Digest.Written(ev2.cm), Digest.Written(ev1.cm), Digest.Written(ev1.secret));
      }
    }
    if ev2.cm == ev1.cm && ev2.secret == Apply(ev1.secret, e) {
      EditChanges(ev1.secret, e);
      if Hashed(ev2.cm, ev2.secret) == Hashed(ev1.cm, ev1.secret) {
        SameHead(Digest.Written(ev1.cm), Digest.Written(ev2.secret), Digest.Written(ev1.secret));
      }
    }
  }

  /** And with unchanged spec, config and data the template is the same, so that no pod is replaced. */
  lemma NoEditNoRollout(w: World, es: seq<Event>, j1: nat, ev1: Evidence, j2: nat, ev2: Evidence)
    requires Initial(w)
    requires ReadyEntry(Run(w, es).s.history.log, j1, ev1) && ReadyEntry(Run(w, es).s.history.log, j2, ev2)
    requires ev1.read.spec == ev2.read.spec && ev1.config == ev2.config && ev1.cm == ev2.cm && ev1.secret == ev2.secret
    ensures Template(ev1.deployment) == Template(ev2.deployment)
  {
    ReadyTemplate(w, es, j1, ev1);
    ReadyTemplate(w, es, j2, ev2);
    hide Run, OptsFor;
    var c1, c2 := ev1.deployment.containers, ev2.deployment.containers;
    assert c1 == [c1[0]] && c2 == [c2[0]];
    assert c1[0] == c2[0];
  }
}
