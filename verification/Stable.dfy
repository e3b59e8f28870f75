/** When the namespace is stable: a condition on what users and operators store, not on what the controller does. */
module Stable {
  import opened Machine
  import opened Targets
  import opened FrameRuns
  import NoOrphans

  /** A run that touches no other namespace works in this one. */
  lemma {:induction false} WorksInOne(w: World, es: seq<Event>, ns: string)
    requires Touched(w, es) <= {ns}
    ensures NoOrphans.RunWorksIn(w, es, ns)
    decreases |es|
  {
    hide Step;
    if es != [] {
      WorksInOne(Step(w, es[0]), es[1..], ns);
    }
  }

  /** No orphans, from what is stored alone: if every spec and every config anyone stores resolve together to one
      namespace, and only the controller takes away its finalizer and its access requests, then in every reachable state
      whatever the controller made has its finalized service object above it, and outside the few keys it owns in that
      namespace the control plane is what its users made of it. */
  lemma NothingOrphaned(w: World, es: seq<Event>, ns: string)
    requires Initial(w) && AllTame(es) && Targets.Targets(es) <= {ns}
    ensures NoOrphans.NoOrphan(Run(w, es).s)
    ensures Agree(Run(w, es).s.plane.mcp, UsersOnly(w.s.plane, es).mcp, {ns}, Listed(es))
  {
    WritesStayInside(w, es);
    WorksInOne(w, es, ns);
    NoOrphans.NothingOrphaned(w, es, ns);
    AgreeMore(Run(w, es).s.plane.mcp, UsersOnly(w.s.plane, es).mcp, Targets.Targets(es), {ns}, Listed(es));
    hide Run, Agree, NoOrphans.RunWorksIn, NoOrphans.NoOrphan;
  }
}
