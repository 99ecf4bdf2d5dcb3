/**
 The deletion of a cluster: the datanodes' clean-up is the one that deletes claims, a refused one keeps the finalizer,
 and passes in which nothing is refused take it away.
 */
module Deletion {
  import opened Text
  import opened Names
  import opened Resources
  import opened Apply
  import opened Machine
  import opened Reconciler
  import Failures
  import Progress
  import Storage

  /**
   The step of a deletion that cleans up after the datanodes, answered by the claim server: the pass goes on, and the
   clean-up is recorded, only if no claim is left that must go; otherwise the pass is over and nothing is recorded.
   */
  method CleanUpDatanodes(server: Storage.ClaimServer, c: Storage.Cluster, v: View, store: Store, a: Answer)
    returns (w: View)
    requires v.pass.Some? && v.pass.value.pc == Cleaning(Datanode)
    modifies server
    ensures Storage.OnlyDoomed(c, old(server.claims), server.claims)
    ensures w.history == v.history + [Cleaned(Datanode)] || w == v.(pass := None)
    ensures w.history == v.history + [Cleaned(Datanode)] ==>
      forall k :: k in server.claims ==> !(k.namespace == c.namespace && Storage.IsDoomed(c, server.claims[k]))
    ensures w == v.(pass := None) ==> server.callsLeft == 0
  {
    var ok := server.CleanUp(c);
    w := PassStep(v, store, a.(ok := ok)).0;
  }

  /** Nothing is refused: reads and clean-ups succeed, writes are made. */
  predicate IsGood(a: Answer)
  {
    a.ok && a.write == Done
  }

  function StepsOf(k: Key, answers: seq<Answer>): seq<Action>
  {
    seq(|answers|, i requires 0 <= i < |answers| => Step(k, answers[i]))
  }

  /** The pass is cleaning up, or about to release the finalizer. */
  predicate IsCleaning(v: View, c: Cluster, pc: Pc)
  {
    v.cluster == Some(c) && v.pass == Some(Progress.PassOf(c, pc))
  }

  lemma CleaningStep(v: View, c: Cluster, store: Store, r: Role, a: Answer)
    requires IsCleaning(v, c, Cleaning(r)) && IsGood(a)
    ensures var (w, t) := PassStep(v, store, a);
      && w.history == v.history + [Cleaned(r)]
      && IsCleaning(w, c, if r == Flownode then Releasing else Cleaning(NextRole(r)))
  {
  }

  lemma ReleasingStep(v: View, c: Cluster, store: Store, a: Answer)
    requires IsCleaning(v, c, Releasing) && IsGood(a)
    ensures PassStep(v, store, a).0
         == v.(pass := None, cluster := Some(c.(finalizer := false)), history := v.history + [Released])
  {
  }

  lemma OneCleaned(p: Place, c: Cluster, r: Role, a: Answer) returns (q: Place)
    requires IsCleaning(p.view, c, Cleaning(r)) && IsGood(a)
    ensures q.k == p.k && q.run == p.run + [Step(p.k, a)] && q.view.history == p.view.history + [Cleaned(r)]
    ensures IsCleaning(q.view, c, if r == Flownode then Releasing else Cleaning(NextRole(r)))
  {
    CleaningStep(p.view, c, p.store, r, a);
    q := Extended(p, Step(p.k, a));
  }

  lemma OneReleased(p: Place, c: Cluster, a: Answer) returns (q: Place)
    requires IsCleaning(p.view, c, Releasing) && IsGood(a)
    ensures q.k == p.k && q.run == p.run + [Step(p.k, a)] && q.view.history == p.view.history + [Released]
    ensures q.view.pass == None && q.view.cluster == Some(c.(finalizer := false))
  {
    ReleasingStep(p.view, c, p.store, a);
    q := Extended(p, Step(p.k, a));
  }

  /** The clean-ups of a pass in their order, and the release. */
  const DELETED :=
    [Cleaned(Monitoring), Cleaned(Meta), Cleaned(Datanode), Cleaned(Frontend), Cleaned(Flownode), Released]

  lemma CleanedAll(p: Place, c: Cluster, answers: seq<Answer>) returns (q: Place)
    requires IsCleaning(p.view, c, Cleaning(Monitoring)) && |answers| == 6 && forall a :: a in answers ==> IsGood(a)
    ensures q.k == p.k && q.run == p.run + StepsOf(p.k, answers) && q.view.history == p.view.history + DELETED
    ensures q.view.pass == None && q.view.cluster == Some(c.(finalizer := false))
  {
    q := OneCleaned(p, c, Monitoring, answers[0]);
    q := OneCleaned(q, c, Meta, answers[1]);
    q := OneCleaned(q, c, Datanode, answers[2]);
    q := OneCleaned(q, c, Frontend, answers[3]);
    q := OneCleaned(q, c, Flownode, answers[4]);
    q := OneReleased(q, c, answers[5]);
  }

  /** A cluster that is to be deleted and still has the finalizer, between two passes. */
  predicate IsLeaving(v: View, c: Cluster)
  {
    v.pass == None && v.cluster == Some(c) && c.deleting && c.finalizer
  }

  /**
   In phase Terminating a pass in which nothing is refused cleans up after all deployers, in order, and takes the
   finalizer away.
   */
  lemma TerminatingPassReleases(p: Place, c: Cluster, answers: seq<Answer>) returns (q: Place)
    requires IsLeaving(p.view, c) && c.phase == Terminating && |answers| == 6 && forall a :: a in answers ==> IsGood(a)
    ensures q.k == p.k && q.run == p.run + [Begin(p.k)] + StepsOf(p.k, answers)
    ensures q.view.history == p.view.history + [Began(Terminating, true)] + DELETED
    ensures q.view.pass == None && q.view.cluster == Some(c.(finalizer := false))
  {
    q := Extended(p, Begin(p.k));
    q := CleanedAll(q, c, answers);
  }

  lemma MarkingStep(v: View, c: Cluster, store: Store, a: Answer)
    requires IsCleaning(v, c, MarkingTerminating) && c.phase != Terminating && IsGood(a)
    ensures var w := PassStep(v, store, a).0;
      && w.pass == None && w.cluster == Some(c.(phase := Terminating))
      && w.history == v.history + [Moved(c.phase, Terminating)]
  {
  }

  /** In any other phase the pass only makes it Terminating. */
  lemma FirstPassTerminates(p: Place, c: Cluster, a: Answer) returns (q: Place)
    requires IsLeaving(p.view, c) && c.phase != Terminating && IsGood(a)
    ensures q.k == p.k && q.run == p.run + [Begin(p.k), Step(p.k, a)]
    ensures IsLeaving(q.view, c.(phase := Terminating))
    ensures q.view.history == p.view.history + [Began(c.phase, true), Moved(c.phase, Terminating)]
  {
    q := Extended(p, Begin(p.k));
    MarkingStep(q.view, c, q.store, a);
    q := Extended(q, Step(p.k, a));
  }

  /**
   Deletion, from every reachable state between two passes of a cluster that is to be deleted, whatever its phase: two
   passes in which nothing is refused clean up and take the finalizer away, one if it is Terminating already; and then
   the resource vanishes.
   */
  lemma DeletionCompletes(p: Place, c: Cluster, first: Answer, answers: seq<Answer>) returns (q: Place)
    requires IsLeaving(p.view, c) && IsGood(first) && |answers| == 6 && forall a :: a in answers ==> IsGood(a)
    ensures var pass, marking := [Begin(p.k)] + StepsOf(p.k, answers), [Begin(p.k), Step(p.k, first)];
      && q.run == p.run + (if c.phase == Terminating then [] else marking) + pass + [Vanish(p.k)] && q.k == p.k
      && q.view.cluster == None
    ensures var marked := if c.phase == Terminating then [] else [Began(c.phase, true), Moved(c.phase, Terminating)];
            q.view.history == p.view.history + marked + [Began(Terminating, true)] + DELETED
  {
    var m, d := p, c.(phase := Terminating);
    if c.phase != Terminating {
      m := FirstPassTerminates(p, c, first);
    }
    var r := TerminatingPassReleases(m, d, answers);
    q := Extended(r, Vanish(p.k));
  }

  /** A refused clean-up of the datanodes leaves the finalizer and everything else as it was, and ends the pass. */
  lemma RefusedCleanUpKeepsFinalizer(v: View, c: Cluster, store: Store, a: Answer)
    requires IsCleaning(v, c, Cleaning(Datanode)) && !a.ok
    ensures PassStep(v, store, a).0.cluster == Some(c) && PassStep(v, store, a).0.pass == None
    ensures PassStep(v, store, a).0.history == v.history
  {
    Failures.FailureExactly(v, store, a);
  }
}
