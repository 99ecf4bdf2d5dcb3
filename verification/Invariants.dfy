/**
 The inductive invariants of the protocol, stated about one cluster's view and a
 summary of its past, and their preservation by every step of a pass and every
 action of the environment.
 */
module Invariants {
  import opened Text
  import opened Resources
  import opened Apply
  import opened Machine
  import opened Histories

  predicate Serving(phase: Phase)
  {
    phase == Running || phase == Updating
  }

  /** Before the deployers run, or on the way to phase Error. */
  predicate IsEarly(pc: Pc)
  {
    pc.AddingFinalizer? || pc.Validating? || pc.SavingSpec? || pc.MarkingStarting? || pc.MarkingError?
  }

  /** How many deployers have returned success in this pass, at least. */
  function Progress(pc: Pc): nat
  {
    match pc
    case Generating(r) => Rank(r)
    case Hooking(r) => Rank(r)
    case Applying(r, _, _) => Rank(r)
    case Arming(_, _) => 2
    case Patching(r, _, _, _) => Rank(r)
    case Checking(r, _, _) => Rank(r)
    case SavingStatus(r, _) => Rank(r)
    case Disarming => 2
    case Closing => 5
    case MarkingRunning => 5
    case _ => 0
  }

  /** The creation-time maintenance call of this pass, if it was due, is behind us. */
  predicate PastMeta(pc: Pc)
  {
    Progress(pc) >= 2 || pc == SavingStatus(Meta, true)
  }

  /** A datanode object may have been patched earlier in this pass. */
  predicate MayHavePatched(pc: Pc)
  {
    match pc
    case Applying(r, _, updated) => r == Datanode && updated
    case Arming(_, updated) => updated
    case Patching(r, _, updated, _) => r == Datanode && updated
    case Waiting => true
    case _ => false
  }

  /** How many of the `n` watched StatefulSets were seen ready in this pass, at least. */
  function Seen(pc: Pc, n: nat): nat
  {
    if Progress(pc) > 2 || pc == SavingStatus(Datanode, true) || pc == Disarming then n
    else if pc.Checking? && pc.role == Datanode && pc.allReady && pc.i <= n then pc.i
    else 0
  }

  predicate AllIn(keys: seq<ObjectKey>, n: nat, seen: set<ObjectKey>)
  {
    forall i :: 0 <= i < n && i < |keys| ==> keys[i] in seen
  }

  predicate DeletingPassFits(v: View, p: Pass, s: Past)
  {
    && (v.cluster.Some? ==> v.cluster.value.deleting)
    && s.opening.Some? && s.opening.value.Began? && s.opening.value.deleting
    && Flownode !in s.succeeded
    && (!p.pc.MarkingTerminating? ==> s.opening == Some(Began(Terminating, true)))
    && (p.pc.Cleaning? ==> FirstRoles(Rank(p.pc.role), s.cleaned))
    && (p.pc.Releasing? ==> FirstRoles(5, s.cleaned))
  }

  predicate EarlyPassFits(p: Pass, s: Past)
  {
    && s.phase != Terminating && !s.patched && !s.deployed && s.succeeded == {}
    && (!p.pc.MarkingError? ==> s.phase == p.phase && (Serving(p.phase) ==> !p.maintenance))
  }

  predicate PatchFits(v: View, p: Pass, d: Desired)
    requires p.pc.Patching?
  {
    var kind := Patch(p.spec.failover, p.pc.compared);
    IsJudged(p.pc.role, d, kind) && (IsRestart(kind) ==> v.armed)
  }

  predicate SyncPassFits(v: View, p: Pass, s: Past)
    requires InBounds(p)
  {
    && s.phase == p.phase && p.phase != Terminating && p.phase != Unset
    && (Serving(p.phase) ==> !p.maintenance)
    && (p.phase == Starting && PastMeta(p.pc) && !p.pc.MarkingRunning? ==> p.maintenance)
    && (p.pc.Closing? || p.pc.MarkingRunning? ==> p.phase == Starting || p.phase == Updating)
    && (p.pc.MarkingRunning? ==> !p.maintenance && (p.phase == Starting ==> !v.on))
    && (!p.pc.Closing? && !p.pc.MarkingRunning? ==> Flownode !in s.succeeded)
    && (p.pc.Arming? ==> p.spec.failover && p.spec.Objects(Datanode)[p.pc.i].IsStatefulSet())
    && (p.pc.Patching? ==> PatchFits(v, p, p.spec.Objects(p.pc.role)[p.pc.i]))
    && (p.pc.Checking? && p.pc.role == Datanode ==> p.pc.i <= |Watched(p.spec)|)
    && FirstRoles(Progress(p.pc), s.succeeded)
    && (!MayHavePatched(p.pc) ==> !s.patched)
    && AllIn(Watched(p.spec), Seen(p.pc, |Watched(p.spec)|), s.seen)
  }

  predicate ClusterFits(v: View, c: Cluster, s: Past)
  {
    && c.phase == s.phase
    && (c.phase == Terminating ==> c.deleting)
    && (s.complete ==> c.spec.complete)
    && (Serving(c.phase) ==> !c.maintenance && (v.on ==> v.armed))
  }

  /** The view agrees with its past. */
  predicate Fits(v: View, s: Past)
  {
    && v.on == s.maintained && v.armed == s.armed
    && (v.cluster.Some? ==> ClusterFits(v, v.cluster.value, s))
    && (v.pass.Some? ==> PassFits(v, v.pass.value, s))
  }

  predicate PassFits(v: View, p: Pass, s: Past)
  {
    if IsDeletion(p.pc) then DeletingPassFits(v, p, s)
    else if IsEarly(p.pc) then EarlyPassFits(p, s)
    else InBounds(p) && SyncPassFits(v, p, s)
  }

  ghost predicate Inv(v: View)
  {
    && WellJustified(v.history)
    && (v.history == [] ==> v.cluster == None && v.pass == None)
    && Fits(v, Recall(v.history))
  }

  /** A step appends at most one event, a justified one, after which the view agrees with its past again. */
  predicate Keeps(v: View, s: Past, w: View)
  {
    || (w.history == v.history && Fits(w, s))
    || (|w.history| == |v.history| + 1 && Logs(v, s, w, w.history[|v.history|]))
  }

  predicate Logs(v: View, s: Past, w: View, e: Event)
  {
    w.history == v.history + [e] && Justified(s, e) && Fits(w, Extend(s, e))
  }

  predicate At(v: View, p: Pass, s: Past)
  {
    v.pass == Some(p) && Fits(v, s)
  }

  // ----- Preservation, step by step -----

  lemma FinalizerKeeps(v: View, p: Pass, a: Answer, s: Past)
    requires At(v, p, s) && p.pc.AddingFinalizer?
    ensures Keeps(v, s, FinalizerStep(v, p, a))
  {
    assert Fits(FinalizerStep(v, p, a), s);
  }

  lemma DefaultsLog(v: View, p: Pass, c: Cluster, next: Pc, s: Past)
    requires At(v, p, s) && p.pc.SavingSpec? && v.cluster == Some(c) && c.spec == p.spec && Defaulted(p.spec) != p.spec
    requires next == MarkingStarting || next == MarkingError
    ensures var spec := Defaulted(p.spec);
            Logs(v, s, Goto(Log(v.(cluster := Some(c.(spec := spec))), Updated), p.(spec := spec), next), Updated)
  {
  }

  lemma DefaultsKeeps(v: View, p: Pass, a: Answer, s: Past)
    requires At(v, p, s) && p.pc.SavingSpec?
    ensures Keeps(v, s, DefaultsStep(v, p, a))
  {
    var q := p.(spec := Defaulted(p.spec));
    if q.spec == p.spec {
      assert EarlyPassFits(p.(pc := MarkingStarting), s);
    } else if a.write == Failed || !Unchanged(v, p) {
      assert EarlyPassFits(q.(pc := MarkingError), s);
    } else {
      DefaultsLog(v, p, v.cluster.value, if a.write == Done then MarkingStarting else MarkingError, s);
    }
  }

  lemma StartingLogs(v: View, p: Pass, a: Answer, s: Past)
    requires At(v, p, s) && p.pc.MarkingStarting? && p.phase == Unset && a.write != Failed && v.cluster.Some?
    ensures Logs(v, s, MarkStartingStep(v, p, a), Moved(Unset, Starting))
  {
  }

  lemma MarkStartingKeeps(v: View, p: Pass, a: Answer, s: Past)
    requires At(v, p, s) && p.pc.MarkingStarting?
    ensures Keeps(v, s, MarkStartingStep(v, p, a))
  {
    if p.phase != Unset {
      assert SyncPassFits(v, p.(pc := Preparing), s);
    } else if a.write != Failed && v.cluster.Some? {
      StartingLogs(v, p, a, s);
    }
  }

  lemma ValidateKeeps(v: View, p: Pass, a: Answer, s: Past)
    requires At(v, p, s) && p.pc.Validating?
    ensures Keeps(v, s, PrologueStep(v, p, a))
  {
  }

  lemma PrepareKeeps(v: View, p: Pass, a: Answer, s: Past)
    requires At(v, p, s) && p.pc.Preparing?
    ensures Keeps(v, s, PrologueStep(v, p, a))
  {
    assert SyncPassFits(v, p.(pc := Generating(Monitoring)), s);
  }

  lemma PrologueKeeps(v: View, p: Pass, a: Answer, s: Past)
    requires At(v, p, s) && IsPrologue(p.pc)
    ensures Keeps(v, s, PrologueStep(v, p, a))
  {
    match p.pc
    case AddingFinalizer => FinalizerKeeps(v, p, a, s);
    case Validating => ValidateKeeps(v, p, a, s);
    case SavingSpec => DefaultsKeeps(v, p, a, s);
    case MarkingStarting => MarkStartingKeeps(v, p, a, s);
    case Preparing => PrepareKeeps(v, p, a, s);
  }

  /** A pass can always end. */
  lemma StopFits(v: View, s: Past)
    requires Fits(v, s)
    ensures Fits(Stop(v), s)
  {
  }

  lemma GoFits(v: View, p: Pass, next: Pc, s: Past)
    requires Fits(v, s) && !IsDeletion(next) && !IsEarly(next) && InBounds(p.(pc := next))
    requires SyncPassFits(v, p.(pc := next), s)
    ensures Fits(Goto(v, p, next), s)
  {
  }

  lemma LandFits(v: View, p: Pass, next: Pc, s: Past)
    requires Fits(v.(pass := None), s) && !IsDeletion(next) && !IsEarly(next) && InBounds(p.(pc := next))
    requires SyncPassFits(v, p.(pc := next), s)
    ensures Fits(Goto(v, p, next), s)
  {
  }

  /** Events that say nothing about the persisted cluster, the flag or the metasrv. */
  predicate IsInternal(e: Event)
  {
    e.Wrote? || e.Observed? || e.Succeeded?
  }

  lemma InternalFits(v: View, e: Event, s: Past)
    requires Fits(v.(pass := None), s) && IsInternal(e)
    ensures Fits(Stop(Log(v, e)), Extend(s, e))
  {
  }

  lemma InternalStops(v: View, e: Event, s: Past)
    requires Fits(v.(pass := None), s) && IsInternal(e) && Justified(s, e)
    ensures Logs(v, s, Stop(Log(v, e)), e)
  {
    InternalFits(v, e, s);
  }

  lemma InternalGoes(v: View, p: Pass, next: Pc, e: Event, s: Past)
    requires Fits(v.(pass := None), s) && IsInternal(e) && Justified(s, e)
    requires !IsDeletion(next) && !IsEarly(next) && InBounds(p.(pc := next))
    requires SyncPassFits(v, p.(pc := next), Extend(s, e))
    ensures Logs(v, s, Goto(Log(v, e), p, next), e)
  {
    InternalFits(v, e, s);
  }

  /** The success of a deployer, before which all that its successors rely on holds. */
  predicate MayAdvance(p: Pass, role: Role, s: Past)
  {
    && s.phase == p.phase && p.phase != Terminating && p.phase != Unset
    && (Serving(p.phase) ==> !p.maintenance)
    && (p.phase == Starting && Rank(role) >= 1 ==> p.maintenance)
    && FirstRoles(Rank(role), s.succeeded) && Flownode !in s.succeeded && !s.patched
    && (Rank(role) >= 2 ==> AllIn(Watched(p.spec), |Watched(p.spec)|, s.seen))
  }

  lemma AdvancedFits(v: View, p: Pass, role: Role, s: Past)
    requires MayAdvance(p, role, s) && role != Flownode
    ensures SyncPassFits(v, p.(pc := Generating(NextRole(role))), Extend(s, Succeeded(role)))
  {
  }

  lemma ClosingFits(v: View, p: Pass, s: Past)
    requires MayAdvance(p, Flownode, s) && (p.phase == Starting || p.phase == Updating)
    ensures SyncPassFits(v, p.(pc := Closing), Extend(s, Succeeded(Flownode)))
  {
  }

  lemma AdvanceKeeps(v: View, p: Pass, role: Role, s: Past)
    requires Fits(v.(pass := None), s) && MayAdvance(p, role, s)
    ensures Logs(v, s, Advance(v, p, role), Succeeded(role))
  {
    if role != Flownode {
      AdvancedFits(v, p, role, s);
      InternalGoes(v, p, Generating(NextRole(role)), Succeeded(role), s);
    } else if p.phase == Starting || p.phase == Updating {
      ClosingFits(v, p, s);
      InternalGoes(v, p, Closing, Succeeded(role), s);
    } else {
      InternalStops(v, Succeeded(role), s);
    }
  }

  lemma GenerateKeeps(v: View, p: Pass, a: Answer, s: Past)
    requires At(v, p, s) && p.pc.Generating?
    ensures Keeps(v, s, SyncStartStep(v, p, a))
  {
    if a.ok && p.spec.Objects(p.pc.role) == [] {
      AdvanceKeeps(v, p, p.pc.role, s);
    } else if a.ok {
      assert SyncPassFits(v, p.(pc := Hooking(p.pc.role)), s);
    }
  }

  lemma HookKeeps(v: View, p: Pass, a: Answer, s: Past)
    requires At(v, p, s) && p.pc.Hooking?
    ensures Keeps(v, s, SyncStartStep(v, p, a))
  {
    assert SyncPassFits(v, p.(pc := Applying(p.pc.role, 0, false)), s);
  }

  lemma CreatedFits(v: View, p: Pass, e: Event, s: Past)
    requires At(v, p, s) && p.pc.Applying? && p.pc.i < |p.spec.Objects(p.pc.role)|
    requires e == Wrote(p.pc.role, p.spec.Objects(p.pc.role)[p.pc.i], Creation)
    ensures Justified(s, e)
    ensures SyncPassFits(v, p.(pc := Applying(p.pc.role, p.pc.i + 1, p.pc.updated)), Extend(s, e))
  {
  }

  lemma CreatedLogs(v: View, p: Pass, e: Event, s: Past)
    requires At(v, p, s) && p.pc.Applying? && p.pc.i < |p.spec.Objects(p.pc.role)|
    requires e == Wrote(p.pc.role, p.spec.Objects(p.pc.role)[p.pc.i], Creation)
    ensures Logs(v, s, Stop(Log(v, e)), e)
    ensures Logs(v, s, Goto(Log(v, e), p, Applying(p.pc.role, p.pc.i + 1, p.pc.updated)), e)
  {
    StopFits(v, s);
    CreatedFits(v, p, e, s);
    InternalStops(v, e, s);
    InternalGoes(v, p, Applying(p.pc.role, p.pc.i + 1, p.pc.updated), e, s);
  }

  lemma CreateKeeps(v: View, p: Pass, store: Store, a: Answer, s: Past)
    requires At(v, p, s) && p.pc.Applying? && p.pc.i < |p.spec.Objects(p.pc.role)|
    ensures Keeps(v, s, WriteStep(v, p, store, p.pc.role, p.pc.i, p.pc.updated, Creation, a).0)
  {
    var d := p.spec.Objects(p.pc.role)[p.pc.i];
    CreatedLogs(v, p, Wrote(p.pc.role, d, Creation), s);
  }

  lemma PatchedFits(v: View, p: Pass, e: Event, s: Past)
    requires At(v, p, s) && p.pc.Patching?
    requires e == Wrote(p.pc.role, p.spec.Objects(p.pc.role)[p.pc.i], Patch(p.spec.failover, p.pc.compared))
    ensures Justified(s, e)
    ensures SyncPassFits(v, p.(pc := Applying(p.pc.role, p.pc.i + 1, true)), Extend(s, e))
  {
  }

  lemma PatchedLogs(v: View, p: Pass, e: Event, s: Past)
    requires At(v, p, s) && p.pc.Patching?
    requires e == Wrote(p.pc.role, p.spec.Objects(p.pc.role)[p.pc.i], Patch(p.spec.failover, p.pc.compared))
    ensures Logs(v, s, Stop(Log(v, e)), e)
    ensures Logs(v, s, Goto(Log(v, e), p, Applying(p.pc.role, p.pc.i + 1, true)), e)
  {
    StopFits(v, s);
    PatchedFits(v, p, e, s);
    InternalStops(v, e, s);
    InternalGoes(v, p, Applying(p.pc.role, p.pc.i + 1, true), e, s);
  }

  lemma PatchKeeps(v: View, p: Pass, store: Store, a: Answer, s: Past)
    requires At(v, p, s) && p.pc.Patching?
    ensures Keeps(v, s, PatchStep(v, p, store, a).0)
  {
    var d := p.spec.Objects(p.pc.role)[p.pc.i];
    PatchedLogs(v, p, Wrote(p.pc.role, d, Patch(p.spec.failover, p.pc.compared)), s);
  }

  lemma ApplySameKeeps(v: View, p: Pass, store: Store, a: Answer, s: Past)
    requires At(v, p, s) && p.pc.Applying? && p.pc.i < |p.spec.Objects(p.pc.role)| && a.ok
    requires Compare(store, p.spec.Objects(p.pc.role)[p.pc.i]) == Same
    ensures Keeps(v, s, ApplyStep(v, p, store, a).0)
  {
    ApplyNextFits(v, p, s);
    GoFits(v, p, Applying(p.pc.role, p.pc.i + 1, p.pc.updated), s);
  }

  lemma ApplyNextFits(v: View, p: Pass, s: Past)
    requires At(v, p, s) && p.pc.Applying?
    ensures SyncPassFits(v, p.(pc := Applying(p.pc.role, p.pc.i + 1, p.pc.updated)), s)
  {
  }

  lemma ApplyEndKeeps(v: View, p: Pass, store: Store, a: Answer, s: Past)
    requires At(v, p, s) && p.pc.Applying? && p.pc.i >= |p.spec.Objects(p.pc.role)|
    ensures Keeps(v, s, ApplyStep(v, p, store, a).0)
  {
    ApplyEndFits(v, p, s);
    GoFits(v, p, if p.pc.updated then Waiting else Checking(p.pc.role, 0, true), s);
  }

  lemma ApplyEndFits(v: View, p: Pass, s: Past)
    requires At(v, p, s) && p.pc.Applying?
    ensures SyncPassFits(v, p.(pc := if p.pc.updated then Waiting else Checking(p.pc.role, 0, true)), s)
  {
  }

  lemma ApplyStopKeeps(v: View, p: Pass, store: Store, a: Answer, s: Past)
    requires At(v, p, s) && p.pc.Applying? && p.pc.i < |p.spec.Objects(p.pc.role)|
    requires !a.ok || Compare(store, p.spec.Objects(p.pc.role)[p.pc.i]) == Unreadable
    ensures Keeps(v, s, ApplyStep(v, p, store, a).0)
  {
  }

  lemma ApplyPatchKeeps(v: View, p: Pass, s: Past)
    requires At(v, p, s) && p.pc.Applying? && p.pc.i < |p.spec.Objects(p.pc.role)|
    requires !(p.pc.role == Datanode && p.spec.Objects(Datanode)[p.pc.i].IsStatefulSet() && p.spec.failover)
    ensures Fits(Goto(v, p, Patching(p.pc.role, p.pc.i, p.pc.updated, None)), s)
  {
    assert SyncPassFits(v, p.(pc := Patching(p.pc.role, p.pc.i, p.pc.updated, None)), s);
  }

  lemma ApplyArmKeeps(v: View, p: Pass, s: Past)
    requires At(v, p, s) && p.pc.Applying? && p.pc.i < |p.spec.Objects(Datanode)|
    requires p.pc.role == Datanode && p.spec.failover && p.spec.Objects(Datanode)[p.pc.i].IsStatefulSet()
    ensures Fits(Goto(v, p, Arming(p.pc.i, p.pc.updated)), s)
  {
    assert SyncPassFits(v, p.(pc := Arming(p.pc.i, p.pc.updated)), s);
  }

  lemma ApplyDiffersKeeps(v: View, p: Pass, store: Store, a: Answer, s: Past)
    requires At(v, p, s) && p.pc.Applying? && p.pc.i < |p.spec.Objects(p.pc.role)| && a.ok
    requires Compare(store, p.spec.Objects(p.pc.role)[p.pc.i]) == Differs
    ensures Keeps(v, s, ApplyStep(v, p, store, a).0)
  {
    if p.pc.role == Datanode && p.spec.Objects(Datanode)[p.pc.i].IsStatefulSet() && p.spec.failover {
      ApplyArmKeeps(v, p, s);
    } else {
      ApplyPatchKeeps(v, p, s);
    }
  }

  lemma ApplyKeeps(v: View, p: Pass, store: Store, a: Answer, s: Past)
    requires At(v, p, s) && p.pc.Applying?
    ensures Keeps(v, s, ApplyStep(v, p, store, a).0)
  {
    var Applying(role, i, updated) := p.pc;
    if i >= |p.spec.Objects(role)| {
      ApplyEndKeeps(v, p, store, a, s);
    } else if !a.ok {
      ApplyStopKeeps(v, p, store, a, s);
    } else {
      match Compare(store, p.spec.Objects(role)[i])
      case Unreadable => ApplyStopKeeps(v, p, store, a, s);
      case Same => ApplySameKeeps(v, p, store, a, s);
      case Absent => CreateKeeps(v, p, store, a, s);
      case Differs => ApplyDiffersKeeps(v, p, store, a, s);
    }
  }

  /** A StatefulSet judged to restart is patched only with the flag armed. */
  lemma ArmedFits(v: View, p: Pass, old': PodTemplate, s: Past)
    requires At(v, p, s) && p.pc.Arming?
    ensures var compared := Some(Comparison(p.spec.Objects(Datanode)[p.pc.i].template, old'));
            v.armed || !Restarts(compared) ==> Fits(Goto(v, p, Patching(Datanode, p.pc.i, p.pc.updated, compared)), s)
  {
    var compared := Some(Comparison(p.spec.Objects(Datanode)[p.pc.i].template, old'));
    if v.armed || !Restarts(compared) {
      assert SyncPassFits(v, p.(pc := Patching(Datanode, p.pc.i, p.pc.updated, compared)), s);
    }
  }

  lemma ArmingLogs(v: View, p: Pass, old': PodTemplate, s: Past)
    requires At(v, p, s) && p.pc.Arming? && !v.armed
    ensures var compared := Some(Comparison(p.spec.Objects(Datanode)[p.pc.i].template, old'));
            var next := Patching(Datanode, p.pc.i, p.pc.updated, compared);
            Logs(v, s, Goto(Log(v.(on := true, armed := true), On(DatanodeDeployer)), p, next), On(DatanodeDeployer))
  {
    var compared := Some(Comparison(p.spec.Objects(Datanode)[p.pc.i].template, old'));
    var w := v.(on := true, armed := true);
    var q := p.(pc := Patching(Datanode, p.pc.i, p.pc.updated, compared));
    assert SyncPassFits(w, q, Extend(s, On(DatanodeDeployer)));
  }

  lemma ArmKeeps(v: View, p: Pass, store: Store, a: Answer, s: Past)
    requires At(v, p, s) && p.pc.Arming?
    ensures Keeps(v, s, ArmStep(v, p, store, a))
  {
    var d := p.spec.Objects(Datanode)[p.pc.i];
    if a.ok && d.key in store {
      ArmedFits(v, p, store[d.key].live.template, s);
      if !v.armed {
        ArmingLogs(v, p, store[d.key].live.template, s);
      }
    }
  }

  /** One more StatefulSet looked at. */
  lemma ObservationLogs(v: View, p: Pass, e: Event, allReady: bool, s: Past)
    requires At(v, p, s) && p.pc.Checking? && p.pc.role == Datanode && p.pc.i < |Watched(p.spec)|
    requires e.Observed? && e.key == Watched(p.spec)[p.pc.i]
    requires allReady ==> p.pc.allReady && IsSeenReady(e)
    ensures Logs(v, s, Goto(Log(v, e), p, Checking(Datanode, p.pc.i + 1, allReady)), e)
  {
    StopFits(v, s);
    ObservedFits(v, p, e, allReady, s);
    InternalGoes(v, p, Checking(Datanode, p.pc.i + 1, allReady), e, s);
  }

  lemma ObservedFits(v: View, p: Pass, e: Event, allReady: bool, s: Past)
    requires At(v, p, s) && p.pc.Checking? && p.pc.role == Datanode && p.pc.i < |Watched(p.spec)|
    requires e.Observed? && e.key == Watched(p.spec)[p.pc.i]
    requires allReady ==> p.pc.allReady && IsSeenReady(e)
    ensures SyncPassFits(v, p.(pc := Checking(Datanode, p.pc.i + 1, allReady)), Extend(s, e))
  {
  }

  lemma CheckDatanodeKeeps(v: View, p: Pass, store: Store, a: Answer, s: Past)
    requires At(v, p, s) && p.pc.Checking? && p.pc.role == Datanode
    ensures Keeps(v, s, CheckStep(v, p, store, a))
  {
    var keys := Watched(p.spec);
    if p.pc.i >= |keys| {
      assert SyncPassFits(v, p.(pc := SavingStatus(Datanode, p.pc.allReady)), s);
    } else if a.ok {
      var key := keys[p.pc.i];
      var found := if key in store then Some(store[key]) else None;
      ObservationLogs(v, p, Observed(key, found), p.pc.allReady && found.Some? && IsStatefulSetReady(found.value), s);
    }
  }

  /** A cluster under creation is put into maintenance. */
  lemma CreationLogs(v: View, p: Pass, s: Past)
    requires At(v, p, s) && p.pc.Checking? && p.pc.role == Meta && p.phase == Starting
    ensures var q := p.(maintenance := true);
            Logs(v, s, Goto(Log(v.(on := true), On(MetaDeployer)), q, SavingStatus(Meta, true)), On(MetaDeployer))
  {
    var q := p.(maintenance := true, pc := SavingStatus(Meta, true));
    assert SyncPassFits(v.(on := true), q, Extend(s, On(MetaDeployer)));
  }

  lemma CheckMetaKeeps(v: View, p: Pass, store: Store, a: Answer, s: Past)
    requires At(v, p, s) && p.pc.Checking? && p.pc.role == Meta
    ensures Keeps(v, s, CheckStep(v, p, store, a))
  {
    if a.ok && a.ready && p.phase == Starting && !p.maintenance {
      CreationLogs(v, p, s);
    } else if a.ok {
      CheckedFits(v, p, Meta, a.ready, s);
      GoFits(v, p, SavingStatus(Meta, a.ready), s);
    }
  }

  lemma CheckedFits(v: View, p: Pass, role: Role, ready: bool, s: Past)
    requires At(v, p, s) && p.pc.Checking? && p.pc.role == role && role != Datanode
    requires role == Meta && ready && p.phase == Starting ==> p.maintenance
    ensures SyncPassFits(v, p.(pc := SavingStatus(role, ready)), s)
  {
  }

  lemma CheckOtherKeeps(v: View, p: Pass, store: Store, a: Answer, s: Past)
    requires At(v, p, s) && p.pc.Checking? && p.pc.role != Datanode && p.pc.role != Meta
    ensures Keeps(v, s, CheckStep(v, p, store, a))
  {
    assert SyncPassFits(v, p.(pc := SavingStatus(p.pc.role, a.ready)), s);
  }

  lemma CheckKeeps(v: View, p: Pass, store: Store, a: Answer, s: Past)
    requires At(v, p, s) && p.pc.Checking?
    ensures Keeps(v, s, CheckStep(v, p, store, a))
  {
    if p.pc.role == Datanode {
      CheckDatanodeKeeps(v, p, store, a, s);
    } else if p.pc.role == Meta {
      CheckMetaKeeps(v, p, store, a, s);
    } else {
      CheckOtherKeeps(v, p, store, a, s);
    }
  }

  /** A deployer's status write never moves the persisted phase. */
  lemma SavedFits(v: View, p: Pass, a: Answer, s: Past)
    requires At(v, p, s) && p.pc.SavingStatus?
    ensures var w := Save(v, p, a.write); w.history == v.history && Fits(w.(pass := None), s)
  {
  }

  lemma SavedGoes(v: View, p: Pass, w: View, s: Past)
    requires At(v, p, s) && p.pc.SavingStatus? && (!p.pc.ready || p.pc.role == Datanode)
    ensures SyncPassFits(w, p.(pc := if p.pc.ready then Disarming else Waiting), s)
  {
  }

  lemma SaveStatusKeeps(v: View, p: Pass, a: Answer, s: Past)
    requires At(v, p, s) && p.pc.SavingStatus?
    ensures Keeps(v, s, SaveStatusStep(v, p, a))
  {
    var w := Save(v, p, a.write);
    SavedFits(v, p, a, s);
    if p.pc.ready && p.pc.role != Datanode {
      SavedMayAdvance(v, p, s);
      AdvanceKeeps(w, p, p.pc.role, s);
    } else {
      SavedGoes(v, p, w, s);
      LandFits(w, p, if p.pc.ready then Disarming else Waiting, s);
    }
  }

  lemma SavedMayAdvance(v: View, p: Pass, s: Past)
    requires At(v, p, s) && p.pc.SavingStatus? && p.pc.ready && p.pc.role != Datanode
    ensures MayAdvance(p, p.pc.role, s)
  {
  }

  lemma DisarmKeeps(v: View, p: Pass, a: Answer, s: Past)
    requires At(v, p, s) && p.pc.Disarming?
    ensures Keeps(v, s, DisarmStep(v, p, a))
  {
    if !(v.armed && p.spec.failover) {
      AdvanceKeeps(v, p, Datanode, s);
    } else if a.call {
      assert Logs(v, s, DisarmStep(v, p, a), Off(DatanodeDeployer, Watched(p.spec)));
    }
  }

  lemma WaitKeeps(v: View, p: Pass, a: Answer, s: Past)
    requires At(v, p, s) && p.pc.Waiting?
    ensures Keeps(v, s, WaitStep(v, p, a))
  {
    var w := WaitStep(v, p, a);
    if w.history != v.history {
      assert Logs(v, s, w, Moved(p.phase, if p.phase == Running then Updating else Starting));
    }
  }

  lemma ClosedLogs(v: View, p: Pass, s: Past)
    requires At(v, p, s) && p.pc.Closing? && p.maintenance
    ensures var e := Off(Controller, Watched(p.spec));
            Logs(v, s, Goto(Log(v.(on := false), e), p.(maintenance := false), MarkingRunning), e)
  {
    var q := p.(maintenance := false, pc := MarkingRunning);
    assert SyncPassFits(v.(on := false), q, Extend(s, Off(Controller, Watched(p.spec))));
  }

  lemma CloseKeeps(v: View, p: Pass, a: Answer, s: Past)
    requires At(v, p, s) && p.pc.Closing?
    ensures Keeps(v, s, CloseStep(v, p, a))
  {
    if !p.maintenance {
      assert SyncPassFits(v, p.(pc := MarkingRunning), s);
    } else if a.call {
      ClosedLogs(v, p, s);
    }
  }

  lemma MarkRunningKeeps(v: View, p: Pass, a: Answer, s: Past)
    requires At(v, p, s) && p.pc.MarkingRunning?
    ensures Keeps(v, s, EpilogueStep(v, p, a))
  {
    var w := EpilogueStep(v, p, a);
    if w.history != v.history {
      assert Logs(v, s, w, Moved(s.phase, Running));
    }
  }

  lemma MarkErrorKeeps(v: View, p: Pass, a: Answer, s: Past)
    requires At(v, p, s) && p.pc.MarkingError?
    ensures Keeps(v, s, EpilogueStep(v, p, a))
  {
    var w := EpilogueStep(v, p, a);
    if w.history != v.history {
      assert Logs(v, s, w, Moved(s.phase, Error));
    }
  }

  lemma EpilogueKeeps(v: View, p: Pass, a: Answer, s: Past)
    requires At(v, p, s) && IsEpilogue(p.pc)
    ensures Keeps(v, s, EpilogueStep(v, p, a))
  {
    match p.pc
    case Waiting => WaitKeeps(v, p, a, s);
    case Closing => CloseKeeps(v, p, a, s);
    case MarkingRunning => MarkRunningKeeps(v, p, a, s);
    case MarkingError => MarkErrorKeeps(v, p, a, s);
  }

  lemma MarkTerminatingKeeps(v: View, p: Pass, a: Answer, s: Past)
    requires At(v, p, s) && p.pc.MarkingTerminating?
    ensures Keeps(v, s, DeletionStep(v, p, a))
  {
    var w := DeletionStep(v, p, a);
    if w.history != v.history {
      assert Logs(v, s, w, Moved(s.phase, Terminating));
    }
  }

  lemma CleanedFits(v: View, p: Pass, s: Past)
    requires At(v, p, s) && p.pc.Cleaning?
    ensures var next := if p.pc.role == Flownode then Releasing else Cleaning(NextRole(p.pc.role));
            DeletingPassFits(v, p.(pc := next), Extend(s, Cleaned(p.pc.role)))
  {
  }

  lemma CleanKeeps(v: View, p: Pass, a: Answer, s: Past)
    requires At(v, p, s) && p.pc.Cleaning?
    ensures Keeps(v, s, DeletionStep(v, p, a))
  {
    var w, e := DeletionStep(v, p, a), Cleaned(p.pc.role);
    if w.history != v.history {
      CleanedFits(v, p, s);
      assert Logs(v, s, w, e);
    }
  }

  lemma ReleaseKeeps(v: View, p: Pass, a: Answer, s: Past)
    requires At(v, p, s) && p.pc.Releasing?
    ensures Keeps(v, s, DeletionStep(v, p, a))
  {
    var w := DeletionStep(v, p, a);
    if w.history != v.history {
      assert Logs(v, s, w, Released);
    }
  }

  lemma DeletionKeeps(v: View, p: Pass, a: Answer, s: Past)
    requires At(v, p, s) && IsDeletion(p.pc)
    ensures Keeps(v, s, DeletionStep(v, p, a))
  {
    match p.pc
    case MarkingTerminating => MarkTerminatingKeeps(v, p, a, s);
    case Cleaning(_) => CleanKeeps(v, p, a, s);
    case Releasing => ReleaseKeeps(v, p, a, s);
  }

  lemma PassKeeps(v: View, store: Store, a: Answer, s: Past)
    requires v.pass.Some? && Fits(v, s)
    ensures Keeps(v, s, PassStep(v, store, a).0)
  {
    var p := v.pass.value;
    if IsPrologue(p.pc) {
      PrologueKeeps(v, p, a, s);
    } else if IsEpilogue(p.pc) {
      EpilogueKeeps(v, p, a, s);
    } else if IsDeletion(p.pc) {
      DeletionKeeps(v, p, a, s);
    } else if p.pc.Applying? {
      ApplyKeeps(v, p, store, a, s);
    } else if p.pc.Arming? {
      ArmKeeps(v, p, store, a, s);
    } else if p.pc.Patching? {
      PatchKeeps(v, p, store, a, s);
    } else if p.pc.Checking? {
      CheckKeeps(v, p, store, a, s);
    } else if p.pc.SavingStatus? {
      SaveStatusKeeps(v, p, a, s);
    } else if p.pc.Disarming? {
      DisarmKeeps(v, p, a, s);
    } else if p.pc.Generating? {
      GenerateKeeps(v, p, a, s);
    } else {
      HookKeeps(v, p, a, s);
    }
  }

  lemma BeginKeeps(v: View, s: Past)
    requires Fits(v, s) && v.pass == None && v.cluster.Some?
    ensures Logs(v, s, BeginStep(v), Began(v.cluster.value.phase, v.cluster.value.deleting))
  {
  }

  lemma EditKeeps(v: View, c: Cluster, spec: Spec, s: Past)
    requires Fits(v, s) && v.cluster == Some(c)
    ensures Logs(v, s, Log(v.(cluster := Some(c.(spec := spec))), Edited), Edited)
  {
  }

  lemma AdmitKeeps(v: View, spec: Spec, s: Past)
    requires Fits(v, s) && v.cluster == None && v.pass == None && s == NOTHING
    ensures Logs(v, s, Log(v.(cluster := Some(Cluster(spec, Unset, false, false, false))), Admitted), Admitted)
  {
  }

  lemma RequestKeeps(v: View, c: Cluster, s: Past)
    requires Fits(v, s) && v.cluster == Some(c)
    ensures Fits(v.(cluster := Some(c.(deleting := true))), s) && Fits(v.(cluster := None), s)
  {
  }

  /** Creation, edits, deletion requests and the reads that open a pass. */
  lemma EnvironmentKeeps(v: View, store: Store, a: Action, s: Past)
    requires !a.Mutate? && !a.Step? && Fits(v, s)
    requires v.history == [] ==> v.pass == None && s == NOTHING
    ensures Keeps(v, s, ViewStep(v, store, a).0)
  {
    if a.Create? {
      if v.history == [] && v.cluster == None {
        AdmitKeeps(v, a.spec, s);
      }
    } else if v.cluster.Some? {
      if a.Begin? {
        if v.pass == None {
          BeginKeeps(v, s);
        }
      } else if a.Edit? {
        EditKeeps(v, v.cluster.value, a.spec, s);
      } else {
        RequestKeeps(v, v.cluster.value, s);
      }
    }
  }

  /** Every action of a run keeps the invariant of the cluster it concerns, and only adds to its history. */
  lemma InvKept(v: View, store: Store, a: Action)
    requires Inv(v) && !a.Mutate?
    ensures Inv(ViewStep(v, store, a).0)
    ensures v.history <= ViewStep(v, store, a).0.history
  {
    var s := Recall(v.history);
    if !a.Step? {
      EnvironmentKeeps(v, store, a, s);
      StaysEmpty(v, store, a);
      KeptIsInv(v, ViewStep(v, store, a).0);
    } else if v.pass.Some? {
      PassKeeps(v, store, a.answer, s);
      KeptIsInv(v, PassStep(v, store, a.answer).0);
    }
  }

  /** A view that keeps to its past keeps the invariant. */
  lemma KeptIsInv(v: View, w: View)
    requires Inv(v) && Keeps(v, Recall(v.history), w)
    requires w.history == [] ==> w.cluster == None && w.pass == None
    ensures Inv(w) && v.history <= w.history
  {
    if w.history != v.history {
      RecallOne(v.history, w.history[|v.history|]);
    }
  }

  /** Nothing happens to a cluster that was never created. */
  lemma StaysEmpty(v: View, store: Store, a: Action)
    requires !a.Mutate? && !a.Step? && (v.history == [] ==> v.cluster == None && v.pass == None)
    ensures var w := ViewStep(v, store, a).0; w.history == [] ==> w.cluster == None && w.pass == None
  {
  }
}
