/**
 Where each recorded event comes from: the point of the pass that records it, and the answer that it was given.
 */
module Records {
  import opened Text
  import opened Resources
  import opened Apply
  import opened Machine
  import opened Failures
  import Invariants

  /** The phase that a status write at this point is to persist. */
  function PhaseToSave(p: Pass): Phase
  {
    match p.pc
    case MarkingStarting => Starting
    case Waiting => if p.phase == Running then Updating else if p.phase == Error then Starting else p.phase
    case MarkingRunning => Running
    case MarkingError => Error
    case MarkingTerminating => Terminating
    case _ => p.phase
  }

  /** The spec has not been edited since the pass read it. */
  predicate IsStillRead(v: View, p: Pass)
  {
    v.cluster.Some? && v.cluster.value.spec == p.spec
  }

  /** What must be the case when a step of a pass records the event. */
  predicate Arises(v: View, store: Store, a: Answer, e: Event)
    requires v.pass.Some? && InBounds(v.pass.value)
  {
    var p := v.pass.value;
    match e
    case Updated => p.pc.SavingSpec? && !p.spec.complete && a.write != Failed && IsStillRead(v, p)
    case On(caller) =>
      if p.pc.Arming? then caller == DatanodeDeployer && !v.armed && WouldRestart(p, store) && a.ok && a.call
      else caller == MetaDeployer && IsCreationCall(p, a) && a.call
    case Off(caller, watched) =>
      && a.call && watched == Watched(p.spec)
      && (if p.pc.Disarming? then caller == DatanodeDeployer && v.armed && p.spec.failover
          else p.pc.Closing? && caller == Controller && p.maintenance)
    case Wrote(role, desired, kind) =>
      && a.write != Failed && (if kind.Patch? then p.pc.Patching? else p.pc.Applying? && a.ok && desired.key !in store)
      && p.pc.role == role && p.pc.i < |p.spec.Objects(role)| && desired == p.spec.Objects(role)[p.pc.i]
    case Observed(key, _) =>
      p.pc.Checking? && p.pc.role == Datanode && a.ok && p.pc.i < |Watched(p.spec)| && key == Watched(p.spec)[p.pc.i]
    case Succeeded(role) =>
      || (p.pc == Generating(role) && a.ok && p.spec.Objects(role) == [])
      || (p.pc == SavingStatus(role, true) && role != Datanode)
      || (p.pc == Disarming && role == Datanode && !(v.armed && p.spec.failover))
    case Moved(from, to) =>
      v.cluster.Some? && from == v.cluster.value.phase && from != to && to == PhaseToSave(p) && a.write != Failed
    case Cleaned(role) => p.pc == Cleaning(role) && (role == Datanode ==> a.ok)
    case Released => p.pc.Releasing? && a.write != Failed && IsStillRead(v, p)
    case _ => false
  }

  /** Pods would restart: old and new template differ in a field that the restart depends on. */
  predicate WouldRestart(p: Pass, store: Store)
    requires p.pc.Arming? && InBounds(p)
  {
    var d := p.spec.Objects(Datanode)[p.pc.i];
    d.key in store && d.template.(others := store[d.key].live.template.others) != store[d.key].live.template
  }

  /** The step records at most one event, for the reason given. */
  predicate IsRecorded(v: View, store: Store, a: Answer, w: View)
    requires v.pass.Some? && InBounds(v.pass.value)
  {
    || w.history == v.history
    || (|w.history| == |v.history| + 1 && v.history <= w.history && Arises(v, store, a, w.history[|v.history|]))
  }

  lemma FinalizerRecords(v: View, store: Store, a: Answer)
    requires v.pass.Some?
    requires v.pass.value.pc.AddingFinalizer? || v.pass.value.pc.Validating? || v.pass.value.pc.Preparing?
    ensures IsRecorded(v, store, a, PassStep(v, store, a).0)
  {
  }

  lemma DefaultsRecord(v: View, store: Store, a: Answer)
    requires v.pass.Some? && v.pass.value.pc.SavingSpec?
    ensures IsRecorded(v, store, a, PassStep(v, store, a).0)
  {
  }

  lemma StartRecords(v: View, store: Store, a: Answer)
    requires v.pass.Some? && v.pass.value.pc.MarkingStarting?
    ensures IsRecorded(v, store, a, PassStep(v, store, a).0)
  {
  }

  lemma SyncStartRecords(v: View, store: Store, a: Answer)
    requires v.pass.Some? && (v.pass.value.pc.Generating? || v.pass.value.pc.Hooking?)
    ensures IsRecorded(v, store, a, PassStep(v, store, a).0)
  {
  }

  lemma CreateRecords(v: View, store: Store, a: Answer)
    requires v.pass.Some? && v.pass.value.pc.Applying?
    requires v.pass.value.pc.i < |v.pass.value.spec.Objects(v.pass.value.pc.role)|
    requires a.ok && v.pass.value.spec.Objects(v.pass.value.pc.role)[v.pass.value.pc.i].key !in store
    ensures IsRecorded(v, store, a, PassStep(v, store, a).0)
  {
    CreateIsWrite(v, store, a);
  }

  lemma LookRecords(v: View, store: Store, a: Answer)
    requires v.pass.Some? && v.pass.value.pc.Applying?
    requires v.pass.value.pc.i < |v.pass.value.spec.Objects(v.pass.value.pc.role)| && a.ok ==>
               v.pass.value.spec.Objects(v.pass.value.pc.role)[v.pass.value.pc.i].key in store
    ensures IsRecorded(v, store, a, PassStep(v, store, a).0)
  {
  }

  lemma ArmingRecords(v: View, store: Store, a: Answer)
    requires v.pass.Some? && v.pass.value.pc.Arming? && InBounds(v.pass.value)
    ensures IsRecorded(v, store, a, PassStep(v, store, a).0)
  {
  }

  lemma PatchRecords(v: View, store: Store, a: Answer)
    requires v.pass.Some? && v.pass.value.pc.Patching? && InBounds(v.pass.value)
    ensures IsRecorded(v, store, a, PassStep(v, store, a).0)
  {
  }

  lemma CheckRecords(v: View, store: Store, a: Answer)
    requires v.pass.Some? && v.pass.value.pc.Checking?
    ensures IsRecorded(v, store, a, PassStep(v, store, a).0)
  {
  }

  lemma StatusRecords(v: View, store: Store, a: Answer)
    requires v.pass.Some? && v.pass.value.pc.SavingStatus?
    requires v.cluster.Some? ==> v.cluster.value.phase == v.pass.value.phase
    ensures IsRecorded(v, store, a, PassStep(v, store, a).0)
  {
  }

  lemma DisarmRecords(v: View, store: Store, a: Answer)
    requires v.pass.Some? && v.pass.value.pc.Disarming?
    ensures IsRecorded(v, store, a, PassStep(v, store, a).0)
  {
  }

  lemma WaitRecords(v: View, store: Store, a: Answer)
    requires v.pass.Some? && v.pass.value.pc.Waiting?
    ensures IsRecorded(v, store, a, PassStep(v, store, a).0)
  {
  }

  lemma CloseRecords(v: View, store: Store, a: Answer)
    requires v.pass.Some? && v.pass.value.pc.Closing?
    ensures IsRecorded(v, store, a, PassStep(v, store, a).0)
  {
  }

  lemma MarkRecords(v: View, store: Store, a: Answer)
    requires v.pass.Some? && (v.pass.value.pc.MarkingRunning? || v.pass.value.pc.MarkingError?)
    ensures IsRecorded(v, store, a, PassStep(v, store, a).0)
  {
  }

  lemma TerminatingRecords(v: View, store: Store, a: Answer)
    requires v.pass.Some? && v.pass.value.pc.MarkingTerminating?
    ensures IsRecorded(v, store, a, PassStep(v, store, a).0)
  {
  }

  lemma CleanRecords(v: View, store: Store, a: Answer)
    requires v.pass.Some? && v.pass.value.pc.Cleaning?
    ensures IsRecorded(v, store, a, PassStep(v, store, a).0)
  {
  }

  lemma ReleaseRecords(v: View, store: Store, a: Answer)
    requires v.pass.Some? && v.pass.value.pc.Releasing?
    ensures IsRecorded(v, store, a, PassStep(v, store, a).0)
  {
  }

  /** Every event that a step of a reachable pass records has its reason: the right point, and the right answer. */
  lemma EventsArise(v: View, store: Store, a: Answer)
    requires Invariants.Inv(v) && v.pass.Some? && InBounds(v.pass.value)
    ensures IsRecorded(v, store, a, PassStep(v, store, a).0)
  {
    var p := v.pass.value;
    var pc := p.pc;
    if pc.AddingFinalizer? || pc.Validating? || pc.Preparing? {
      FinalizerRecords(v, store, a);
    } else if pc.SavingSpec? {
      DefaultsRecord(v, store, a);
    } else if pc.MarkingStarting? {
      StartRecords(v, store, a);
    } else if pc.Generating? || pc.Hooking? {
      SyncStartRecords(v, store, a);
    } else if pc.Applying? {
      if pc.i < |p.spec.Objects(pc.role)| && a.ok && p.spec.Objects(pc.role)[pc.i].key !in store {
        CreateRecords(v, store, a);
      } else {
        LookRecords(v, store, a);
      }
    } else if pc.Arming? {
      ArmingRecords(v, store, a);
    } else if pc.Patching? {
      PatchRecords(v, store, a);
    } else if pc.Checking? {
      CheckRecords(v, store, a);
    } else if pc.SavingStatus? {
      if v.cluster.Some? {
        PhaseIsPersisted(v);
      }
      StatusRecords(v, store, a);
    } else if pc.Disarming? {
      DisarmRecords(v, store, a);
    } else if pc.Waiting? {
      WaitRecords(v, store, a);
    } else if pc.Closing? {
      CloseRecords(v, store, a);
    } else if pc.MarkingRunning? || pc.MarkingError? {
      MarkRecords(v, store, a);
    } else if pc.MarkingTerminating? {
      TerminatingRecords(v, store, a);
    } else if pc.Cleaning? {
      CleanRecords(v, store, a);
    } else {
      ReleaseRecords(v, store, a);
    }
  }

  // ----- Calls, exactly -----

  /** The calls for which a step is due. */
  predicate IsCallDue(v: View, store: Store, a: Answer)
    requires v.pass.Some? && InBounds(v.pass.value)
  {
    var p := v.pass.value;
    match p.pc
    case Arming(_, _) => !v.armed && WouldRestart(p, store) && a.ok
    case Checking(_, _, _) => IsCreationCall(p, a)
    case Disarming => v.armed && p.spec.failover
    case Closing => p.maintenance
    case _ => false
  }

  predicate LogsCall(v: View, w: View)
  {
    |w.history| > |v.history| && var e := w.history[|w.history| - 1]; e.On? || e.Off?
  }

  lemma NoCall(v: View, store: Store, a: Answer)
    requires Invariants.Inv(v) && v.pass.Some? && InBounds(v.pass.value) && !IsCallDue(v, store, a)
    ensures !LogsCall(v, PassStep(v, store, a).0)
  {
    EventsArise(v, store, a);
  }

  lemma CallMade(v: View, store: Store, a: Answer)
    requires v.pass.Some? && InBounds(v.pass.value) && IsCallDue(v, store, a)
    ensures a.call <==> LogsCall(v, PassStep(v, store, a).0)
    ensures a.call ==> PassStep(v, store, a).0.on == (v.pass.value.pc.Arming? || v.pass.value.pc.Checking?)
  {
  }

  /**
   A step switches maintenance on or off exactly if that is due and the call succeeds: on before pods restart with the
   flag clear, and when the metasrv of a cluster under creation is ready; off with the flag armed and failover on, and
   when creation ends.
   */
  lemma CallsExactly(v: View, store: Store, a: Answer)
    requires Invariants.Inv(v) && v.pass.Some? && InBounds(v.pass.value)
    ensures LogsCall(v, PassStep(v, store, a).0) <==> IsCallDue(v, store, a) && a.call
  {
    if IsCallDue(v, store, a) {
      CallMade(v, store, a);
    } else {
      NoCall(v, store, a);
    }
  }

  // ----- Status writes -----

  /** The step writes the status of the resource. */
  predicate WritesStatus(p: Pass)
  {
    match p.pc
    case MarkingStarting => p.phase == Unset
    case SavingStatus(_, _) => true
    case Waiting => p.phase == Running || p.phase == Error
    case MarkingRunning => true
    case MarkingError => p.phase != Error
    case MarkingTerminating => true
    case _ => false
  }

  /** The whole status replaces the persisted one, or nothing changes: a write may also fail after taking effect. */
  predicate IsPersisted(v: View, p: Pass, w: View, write: Outcome)
  {
    if write == Failed || v.cluster == None then w.cluster == v.cluster
    else w.cluster == Some(v.cluster.value.(phase := PhaseToSave(p), maintenance := p.maintenance))
  }

  lemma StatusOfDeployer(v: View, store: Store, a: Answer)
    requires v.pass.Some? && v.pass.value.pc.SavingStatus?
    ensures IsPersisted(v, v.pass.value, PassStep(v, store, a).0, a.write)
  {
  }

  lemma StatusOfPass(v: View, store: Store, a: Answer)
    requires v.pass.Some? && WritesStatus(v.pass.value) && !v.pass.value.pc.SavingStatus?
    ensures IsPersisted(v, v.pass.value, PassStep(v, store, a).0, a.write)
  {
  }

  /** What a status write persists, at every point of the pass that makes one. */
  lemma StatusIsWritten(v: View, store: Store, a: Answer)
    requires v.pass.Some? && WritesStatus(v.pass.value)
    ensures var p, w := v.pass.value, PassStep(v, store, a).0;
            if a.write == Failed || v.cluster == None then w.cluster == v.cluster
            else w.cluster == Some(v.cluster.value.(phase := PhaseToSave(p), maintenance := p.maintenance))
  {
    if v.pass.value.pc.SavingStatus? {
      StatusOfDeployer(v, store, a);
    } else {
      StatusOfPass(v, store, a);
    }
  }

  /** How the status write of a deployer turns out has no bearing on where the pass goes from there. */
  lemma FailedStatusIsIgnored(v: View, store: Store, a: Answer, b: Answer)
    requires v.pass.Some? && v.pass.value.pc.SavingStatus?
    ensures PassStep(v, store, a).0.pass == PassStep(v, store, b).0.pass
    ensures PassStep(v, store, a).0.pass == None ==> v.pass.value.pc == SavingStatus(Flownode, true)
  {
  }

  // ----- The spec -----

  /** The step leaves the spec of the resource alone, or gives it its defaults. */
  predicate KeepsSpec(v: View, w: View)
  {
    v.cluster.Some? ==>
      && w.cluster.Some?
      && (w.cluster.value.spec == v.cluster.value.spec
          || w.cluster.value.spec == v.cluster.value.spec.(hasMeta := true, complete := true))
  }

  lemma PrologueKeepsSpec(v: View, p: Pass, a: Answer)
    requires IsPrologue(p.pc)
    ensures KeepsSpec(v, PrologueStep(v, p, a))
  {
  }

  lemma WaitKeepsSpec(v: View, p: Pass, a: Answer)
    ensures KeepsSpec(v, WaitStep(v, p, a)) && KeepsSpec(v, CloseStep(v, p, a))
  {
  }

  lemma EpilogueKeepsSpec(v: View, p: Pass, a: Answer)
    requires IsEpilogue(p.pc)
    ensures KeepsSpec(v, EpilogueStep(v, p, a))
  {
    if p.pc.Waiting? || p.pc.Closing? {
      WaitKeepsSpec(v, p, a);
    }
  }

  lemma DeletionKeepsSpec(v: View, p: Pass, a: Answer)
    requires IsDeletion(p.pc)
    ensures KeepsSpec(v, DeletionStep(v, p, a))
  {
  }

  lemma WriteKeepsSpec(v: View, p: Pass, store: Store, role: Role, i: nat, updated: bool, kind: WriteKind, a: Answer)
    requires i < |p.spec.Objects(role)|
    ensures KeepsSpec(v, WriteStep(v, p, store, role, i, updated, kind, a).0)
  {
  }

  lemma ApplyKeepsSpec(v: View, p: Pass, store: Store, a: Answer)
    requires p.pc.Applying?
    ensures KeepsSpec(v, ApplyStep(v, p, store, a).0)
  {
    if p.pc.i < |p.spec.Objects(p.pc.role)| {
      WriteKeepsSpec(v, p, store, p.pc.role, p.pc.i, p.pc.updated, Creation, a);
    }
  }

  lemma CheckKeepsSpec(v: View, p: Pass, store: Store, a: Answer)
    requires p.pc.Checking?
    ensures KeepsSpec(v, CheckStep(v, p, store, a))
  {
  }

  lemma LateKeepsSpec(v: View, p: Pass, a: Answer)
    ensures p.pc.SavingStatus? ==> KeepsSpec(v, SaveStatusStep(v, p, a))
    ensures p.pc.Disarming? ==> KeepsSpec(v, DisarmStep(v, p, a))
    ensures p.pc.Generating? || p.pc.Hooking? ==> KeepsSpec(v, SyncStartStep(v, p, a))
  {
  }

  lemma ArmKeepsSpec(v: View, p: Pass, store: Store, a: Answer)
    requires p.pc.Arming? && InBounds(p)
    ensures KeepsSpec(v, ArmStep(v, p, store, a))
  {
  }

  /** No edit is lost: a step of a pass changes the stored spec only by giving it its defaults, if anything. */
  lemma EditsAreKept(v: View, store: Store, a: Answer)
    requires v.pass.Some? && InBounds(v.pass.value) && v.cluster.Some?
    ensures var spec, w := v.cluster.value.spec, PassStep(v, store, a).0;
      && w.cluster.Some?
      && (w.cluster.value.spec == spec || w.cluster.value.spec == spec.(hasMeta := true, complete := true))
  {
    var p := v.pass.value;
    if IsPrologue(p.pc) {
      PrologueKeepsSpec(v, p, a);
    } else if IsEpilogue(p.pc) {
      EpilogueKeepsSpec(v, p, a);
    } else if IsDeletion(p.pc) {
      DeletionKeepsSpec(v, p, a);
    } else if p.pc.Applying? {
      ApplyKeepsSpec(v, p, store, a);
    } else if p.pc.Arming? {
      ArmKeepsSpec(v, p, store, a);
    } else if p.pc.Patching? {
      var kind := Patch(p.spec.failover, p.pc.compared);
      WriteKeepsSpec(v, p, store, p.pc.role, p.pc.i, p.pc.updated, kind, a);
    } else if p.pc.Checking? {
      CheckKeepsSpec(v, p, store, a);
    } else {
      LateKeepsSpec(v, p, a);
    }
  }
}
