/**
 What a cluster's history says about its present, and what must already have
 happened for an event to be allowed to happen.
 */
module Histories {
  import opened Text
  import opened Resources
  import opened Machine

  /**
   The present, read off the past. The first six fields are about the pass in
   progress (or the last one), the others about the whole history.
   */
  datatype Past = Past(
    opening: Option<Event>,     // how the pass began
    succeeded: set<Role>,       // deployers that returned success in it
    cleaned: set<Role>,         // deployers whose clean-up succeeded in it
    deployed: bool,             // some deployer wrote, called, observed or succeeded in it
    patched: bool,              // a datanode object was patched in it
    seen: set<ObjectKey>,       // StatefulSets observed fully ready in it
    phase: Phase,               // the persisted phase
    maintained: bool,           // the metasrv's bit: the last call of any caller decides
    armed: bool,                // the last call of the datanode deployer was ON
    complete: bool)             // the stored spec was given its defaults and not edited since

  const NOTHING := Past(None, {}, {}, false, false, {}, Unset, false, false, false)

  /** A StatefulSet was observed whose latest generation is rolled out, with all its replicas current and ready. */
  predicate IsSeenReady(e: Event)
  {
    && e.Observed? && e.found.Some?
    && var l := e.found.value.live;
       l.observedGeneration == l.generation && l.readyReplicas == l.replicas && l.currentReplicas == l.replicas
  }

  predicate IsDatanodePatch(e: Event)
  {
    e.Wrote? && e.role == Datanode && e.kind.Patch?
  }

  /** The deployers are at work. */
  predicate IsDeployment(e: Event)
  {
    e.Wrote? || e.On? || e.Off? || e.Observed? || e.Succeeded?
  }

  /** A patch after which running pods are restarted, judged by the templates that it records. */
  predicate IsRestart(kind: WriteKind)
  {
    kind.Patch? && Restarts(kind.compared)
  }

  function Extend(s: Past, e: Event): Past
  {
    ExtendPass(s.(deployed := s.deployed || IsDeployment(e)), e)
  }

  function ExtendPass(s: Past, e: Event): Past
  {
    match e
    case Admitted => s
    case Edited => s.(complete := false)
    case Updated => s.(complete := true)
    case Began(_, _) =>
      s.(opening := Some(e), succeeded := {}, cleaned := {}, deployed := false, patched := false, seen := {})
    case On(caller) => s.(maintained := true, armed := s.armed || caller == DatanodeDeployer)
    case Off(caller, _) => s.(maintained := false, armed := s.armed && caller != DatanodeDeployer)
    case Wrote(_, _, _) => s.(patched := s.patched || IsDatanodePatch(e))
    case Observed(key, _) => if IsSeenReady(e) then s.(seen := s.seen + {key}) else s
    case Succeeded(role) => s.(succeeded := s.succeeded + {role})
    case Moved(_, to) => s.(phase := to)
    case Cleaned(role) => s.(cleaned := s.cleaned + {role})
    case Released => s
  }

  function Recall(h: seq<Event>): Past
  {
    if h == [] then NOTHING else Extend(Recall(h[..|h| - 1]), h[|h| - 1])
  }

  /** The first `rank` deployers of the fixed order. */
  predicate FirstRoles(rank: nat, roles: set<Role>)
  {
    && (rank > 0 ==> Monitoring in roles)
    && (rank > 1 ==> Meta in roles)
    && (rank > 2 ==> Datanode in roles)
    && (rank > 3 ==> Frontend in roles)
    && (rank > 4 ==> Flownode in roles)
  }

  /** The edges of the phase graph. */
  predicate Edge(from: Phase, to: Phase)
  {
    match to
    case Unset => false
    case Starting => from == Unset || from == Error
    case Running => from == Starting || from == Updating
    case Updating => from == Running
    case Error => from != Terminating && from != Error
    case Terminating => from != Terminating
  }

  /**
   The pod templates were compared exactly if the patch is of a datanode StatefulSet with region failover
   on, and the new one is the template that is written.
   */
  predicate IsJudged(role: Role, desired: Desired, kind: WriteKind)
    requires kind.Patch?
  {
    && (kind.compared.Some? <==> role == Datanode && desired.IsStatefulSet() && kind.failover)
    && (kind.compared.Some? ==> kind.compared.value.new' == desired.template)
  }

  /** What must be in the past for an event to happen. */
  predicate Justified(s: Past, e: Event)
  {
    match e
    case Wrote(role, desired, kind) =>
      && FirstRoles(Rank(role), s.succeeded)
      && (kind.Patch? ==> IsJudged(role, desired, kind) && (IsRestart(kind) ==> s.armed))
    case On(caller) =>
      && caller != Controller
      && (caller == MetaDeployer ==> s.phase == Starting)
      && (caller == DatanodeDeployer ==> !s.armed && FirstRoles(Rank(Datanode), s.succeeded))
    case Off(caller, watched) =>
      && caller != MetaDeployer
      && !s.patched && (forall i :: 0 <= i < |watched| ==> watched[i] in s.seen)
      && (caller == DatanodeDeployer ==> s.armed)
      && (caller == Controller ==> FirstRoles(5, s.succeeded) && s.phase == Starting)
    case Moved(from, to) =>
      && from == s.phase && Edge(from, to)
      && (if to == Running then FirstRoles(5, s.succeeded) else Flownode !in s.succeeded)
      && (to == Error ==> !s.deployed)
      && (to == Terminating ==> s.opening.Some? && s.opening.value.Began? && s.opening.value.deleting)
    case Updated => !s.complete
    case Released => s.opening == Some(Began(Terminating, true)) && FirstRoles(5, s.cleaned)
    case _ => true
  }

  ghost predicate WellJustified(h: seq<Event>)
  {
    forall i :: 0 <= i < |h| ==> Justified(Recall(h[..i]), h[i])
  }

  // ----- Appending an event -----

  lemma RecallStep(h: seq<Event>, j: nat)
    requires 0 < j <= |h|
    ensures Recall(h[..j]) == Extend(Recall(h[..j - 1]), h[j - 1])
  {
    assert h[..j][..j - 1] == h[..j - 1];
  }

  lemma RecallOne(h: seq<Event>, e: Event)
    ensures Recall(h + [e]) == Extend(Recall(h), e)
    ensures WellJustified(h) && Justified(Recall(h), e) ==> WellJustified(h + [e])
  {
    var g := h + [e];
    assert g[..|h|] == h && g[|h|] == e;
    if WellJustified(h) && Justified(Recall(h), e) {
      forall i | 0 <= i < |g|
        ensures Justified(Recall(g[..i]), g[i])
      {
        assert i < |h| ==> g[..i] == h[..i] && g[i] == h[i];
      }
    }
  }
}
