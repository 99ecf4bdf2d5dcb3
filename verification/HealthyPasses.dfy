/**
 Passes in which nothing fails, whatever they find ready. A pass that patches something, or sees something
 unready that it has created, settles the objects of one more deployer and says so in the phase; any other pass
 leaves all objects in place.
 */
module HealthyPasses {
  import opened Text
  import opened Resources
  import opened Apply
  import opened Machine
  import Theorems
  import opened Progress
  import opened Improvement

  // ----- Schedules in which nothing fails -----

  /** Reads, writes and calls succeed; what is read or written may be ready or not. */
  predicate IsGood(a: Answer)
  {
    a.ok && a.call && a.write == Done
  }

  predicate IsCreation(e: Event)
  {
    e.Wrote? && e.kind == Creation
  }

  predicate CreatedSince(h: seq<Event>, mark: nat, role: Role)
  {
    exists i :: mark <= i < |h| && IsCreation(h[i]) && h[i].role == role
  }

  /** A deployer other than that of the datanodes finds its objects unready only if it has just created one. */
  predicate IsBenignStep(v: View, a: Answer)
  {
    && IsGood(a)
    && (v.pass.Some? && v.pass.value.pc.Checking? && v.pass.value.pc.role != Datanode && !a.ready ==>
          CreatedSince(v.history, Theorems.PassStart(v.history), v.pass.value.pc.role))
  }

  /** The step looks at an object, and it is not ready. */
  predicate IsUnready(v: View, store: Store, a: Answer)
  {
    && v.pass.Some? && v.pass.value.pc.Checking?
    && var keys, pc := Watched(v.pass.value.spec), v.pass.value.pc;
       if pc.role != Datanode then !a.ready
       else pc.i < |keys| && !(keys[pc.i] in store && IsStatefulSetReady(store[keys[pc.i]]))
  }

  // ----- Where a pass stands -----

  /** How a pass began: the store, the resource that was read, and how long the history was then. */
  datatype Start = Start(store: Store, cluster: Cluster, mark: nat)
  {
    function Spec(): Spec { Made(cluster).spec }
  }

  /** What must hold when a pass begins for it to end well. */
  ghost predicate IsFair(s: Start)
  {
    && !s.cluster.deleting && s.cluster.phase != Terminating
    && CoherentSpec(s.Spec()) && NothingForeign(s.store, s.Spec()) && WatchedOk(s.store, s.Spec())
  }

  /** Since its beginning the history has seen no other pass, and only creations of what was missing. */
  ghost predicate IsLogged(s: Start, h: seq<Event>)
  {
    && 0 < s.mark <= |h| && h[s.mark - 1].Began?
    && forall i :: s.mark <= i < |h| ==> !h[i].Began? && (IsCreation(h[i]) ==> WasMissing(s, h[i]))
  }

  predicate WasMissing(s: Start, e: Event)
    requires e.Wrote?
  {
    e.desired in s.Spec().Objects(e.role) && e.desired.key !in s.store
  }

  /** The resource at a step before the deployers. */
  function Before(c: Cluster, pc: Pc): Cluster
  {
    match pc
    case AddingFinalizer => c
    case Validating => WithFinalizer(c)
    case SavingSpec => WithFinalizer(c)
    case MarkingStarting => WithDefaults(WithFinalizer(c))
    case _ => Made(c)
  }

  /** The apply loop of a deployer has dealt with its first `i` objects. */
  ghost predicate IsApplying(s: Start, store: Store, role: Role, i: nat, updated: bool)
  {
    && SettledBelow(store, s.Spec(), role) && i <= |s.Spec().Objects(role)|
    && Settled(store, s.Spec().Objects(role)[..i])
    && (if updated then SomeDiffers(s.store, s.Spec().Objects(role)) else Grown(s.store, store, s.Spec()))
  }

  /** The next object is to be patched. */
  ghost predicate IsPatching(s: Start, store: Store, role: Role, i: nat, updated: bool)
  {
    && IsApplying(s, store, role, i, updated) && i < |s.Spec().Objects(role)|
    && Compare(store, s.Spec().Objects(role)[i]) == Differs
  }

  /** The objects of a deployer and of those before it are in place. */
  ghost predicate IsApplied(s: Start, store: Store, role: Role)
  {
    && Grown(s.store, store, s.Spec()) && SettledBelow(store, s.Spec(), role)
    && Settled(store, s.Spec().Objects(role))
  }

  /** The readiness check: what is unready has been created in this pass. */
  ghost predicate IsChecking(s: Start, store: Store, role: Role, ok: bool, unready: bool)
  {
    IsApplied(s, store, role) && (ok <==> !unready) && (unready ==> !Settled(s.store, s.Spec().Objects(role)))
  }

  /** What holds while the deployers are at work, point by point. */
  ghost predicate IsAt(s: Start, store: Store, phase: Phase, pc: Pc, unready: bool)
  {
    match pc
    case Generating(r) => !unready && Grown(s.store, store, s.Spec()) && SettledBelow(store, s.Spec(), r)
    case Hooking(r) => !unready && Grown(s.store, store, s.Spec()) && SettledBelow(store, s.Spec(), r)
    case Applying(r, i, updated) => !unready && IsApplying(s, store, r, i, updated)
    case Arming(i, updated) => !unready && IsPatching(s, store, Datanode, i, updated)
    case Patching(r, i, updated, _) => !unready && IsPatching(s, store, r, i, updated)
    case Checking(r, i, ok) =>
      IsChecking(s, store, r, ok, unready) && (if r == Datanode then i <= |Watched(s.Spec())| else ok)
    case SavingStatus(r, ok) => IsChecking(s, store, r, ok, unready)
    case Disarming => IsChecking(s, store, Datanode, true, unready)
    case Waiting => SomeSettled(s.store, store, s.Spec()) && (NeedsPatch(s.store, s.Spec()) || unready)
    case Closing => IsDone(s, store, unready) && (phase == Starting || phase == Updating)
    case MarkingRunning => IsDone(s, store, unready) && (phase == Starting || phase == Updating)
    case _ => false
  }

  ghost predicate IsDone(s: Start, store: Store, unready: bool)
  {
    !unready && AllSettled(store, s.Spec()) && !NeedsPatch(s.store, s.Spec())
  }

  /** The pass is in progress. */
  ghost predicate IsUnderway(s: Start, v: View, store: Store, unready: bool)
    requires v.pass.Some?
  {
    var p := v.pass.value;
    if IsPrologue(p.pc) then
      && !unready && Grown(s.store, store, s.Spec())
      && v.cluster == Some(Before(s.cluster, p.pc)) && p == PassOf(Before(s.cluster, p.pc), p.pc)
    else IsInSync(s, v, store, p, unready)
  }

  ghost predicate IsInSync(s: Start, v: View, store: Store, p: Pass, unready: bool)
  {
    && v.cluster.Some? && IsWorking(v, p, v.cluster.value, Some(p.pc))
    && v.cluster.value == Made(s.cluster).(maintenance := v.cluster.value.maintenance)
    && p.spec == s.Spec() && IsAt(s, store, p.phase, p.pc, unready)
  }

  /** The phase after a pass in which nothing failed. */
  function NextPhase(phase: Phase, waited: bool): Phase
  {
    var live := if phase == Unset then Starting else phase;
    if !waited then (if live == Error then Error else Running)
    else if live == Running then Updating
    else if live == Error then Starting
    else live
  }

  /** The pass had to wait: it patched something, or saw something unready. */
  ghost predicate HasWaited(s: Start, unready: bool)
  {
    NeedsPatch(s.store, s.Spec()) || unready
  }

  /** The pass is over. */
  ghost predicate IsOver(s: Start, v: View, store: Store, unready: bool)
  {
    && v.cluster.Some?
    && v.cluster.value == Made(s.cluster).(phase := NextPhase(s.cluster.phase, HasWaited(s, unready)),
                                           maintenance := v.cluster.value.maintenance)
    && if HasWaited(s, unready) then SomeSettled(s.store, store, s.Spec()) else AllSettled(store, s.Spec())
  }

  /** Where a pass stands that began as `s`; `unready` says whether it has seen something unready. */
  ghost predicate Stands(s: Start, v: View, store: Store, unready: bool)
  {
    && IsFair(s) && IsLogged(s, v.history) && Improved(s.store, store, s.Spec())
    && if v.pass.Some? then IsUnderway(s, v, store, unready) else IsOver(s, v, store, unready)
  }

  // ----- What a step adds to the history -----

  /** Neither passes that began nor creations were added. */
  predicate NoneMade(g: seq<Event>, h: seq<Event>)
  {
    g <= h && forall i :: |g| <= i < |h| ==> !h[i].Began? && !IsCreation(h[i])
  }

  lemma StaysLogged(s: Start, g: seq<Event>, h: seq<Event>)
    requires IsLogged(s, g) && NoneMade(g, h)
    ensures IsLogged(s, h)
  {
    assert h[s.mark - 1] == g[s.mark - 1];
    assert forall i :: s.mark <= i < |g| ==> h[i] == g[i];
  }

  lemma CreationIsLogged(s: Start, g: seq<Event>, e: Event)
    requires IsLogged(s, g) && IsCreation(e) && WasMissing(s, e)
    ensures IsLogged(s, g + [e])
  {
    assert (g + [e])[s.mark - 1] == g[s.mark - 1];
    assert forall i :: s.mark <= i < |g| ==> (g + [e])[i] == g[i];
  }

  /** The mark of the beginning is the last one in the history. */
  lemma MarkIsPassStart(s: Start, h: seq<Event>)
    requires IsLogged(s, h)
    ensures Theorems.PassStart(h) == s.mark
  {
    var b := Theorems.PassStart(h);
    assert !(b < s.mark) && !(s.mark < b);
  }

  /** A deployer that created something had objects that were not all there. */
  lemma CreatorWasUnsettled(s: Start, h: seq<Event>, role: Role)
    requires IsLogged(s, h) && CreatedSince(h, Theorems.PassStart(h), role)
    ensures !Settled(s.store, s.Spec().Objects(role))
  {
    MarkIsPassStart(s, h);
    var i :| s.mark <= i < |h| && IsCreation(h[i]) && h[i].role == role;
    assert WasMissing(s, h[i]);
  }

  // ----- The steps, seen from the view -----

  /** The step leaves the pass at `at` and the resource as `d`; it is not a creation. */
  predicate Leads(v: View, w: View, at: Option<Pass>, d: Cluster)
  {
    w.pass == at && w.cluster == Some(d) && NoneMade(v.history, w.history)
  }

  lemma FinalizerLeads(v: View, c: Cluster, store: Store, a: Answer)
    requires !c.deleting && IsGood(a) && v.cluster == Some(c) && v.pass == Some(PassOf(c, AddingFinalizer))
    ensures var d := WithFinalizer(c);
            var (w, t) := PassStep(v, store, a);
            t == store && Leads(v, w, Some(PassOf(d, Validating)), d)
  {
  }

  lemma DefaultsLead(v: View, c: Cluster, store: Store, a: Answer)
    requires IsGood(a) && v.cluster == Some(c) && v.pass == Some(PassOf(c, SavingSpec))
    ensures var d := WithDefaults(c);
            var (w, t) := PassStep(v, store, a);
            t == store && Leads(v, w, Some(PassOf(d, MarkingStarting)), d)
  {
  }

  lemma StartingLeads(v: View, c: Cluster, store: Store, a: Answer)
    requires IsGood(a) && v.cluster == Some(c) && v.pass == Some(PassOf(c, MarkingStarting))
    ensures var d := WithPhase(c);
            var (w, t) := PassStep(v, store, a);
            t == store && Leads(v, w, Some(PassOf(d, Preparing)), d)
  {
  }

  lemma PrologueLeads(v: View, c: Cluster, store: Store, a: Answer, pc: Pc, next: Pc)
    requires !c.deleting && IsGood(a) && v.cluster == Some(Before(c, pc)) && v.pass == Some(PassOf(Before(c, pc), pc))
    requires (pc, next) == (AddingFinalizer, Validating) || (pc, next) == (Validating, SavingSpec)
          || (pc, next) == (SavingSpec, MarkingStarting) || (pc, next) == (MarkingStarting, Preparing)
    ensures var (w, t) := PassStep(v, store, a);
            t == store && Leads(v, w, Some(PassOf(Before(c, next), next)), Before(c, next))
  {
    if pc.AddingFinalizer? {
      FinalizerLeads(v, c, store, a);
    } else if pc.SavingSpec? {
      DefaultsLead(v, Before(c, pc), store, a);
    } else if pc.MarkingStarting? {
      StartingLeads(v, Before(c, pc), store, a);
    }
  }

  lemma PreparingLeads(v: View, c: Cluster, store: Store, a: Answer)
    requires IsGood(a) && v.cluster == Some(c) && v.pass == Some(PassOf(c, Preparing))
    ensures var (w, t) := PassStep(v, store, a);
            t == store && Leads(v, w, Some(PassOf(c, Generating(Monitoring))), c)
  {
  }

  lemma GeneratingLeads(v: View, p: Pass, c: Cluster, store: Store, a: Answer, role: Role)
    requires IsGood(a) && IsWorking(v, p, c, Some(Generating(role)))
    ensures var (w, t) := PassStep(v, store, a);
            var next := if p.spec.Objects(role) == [] then Onward(p.phase, role) else Some(Hooking(role));
            t == store && Leads(v, w, PassAt(p, next), c)
  {
  }

  lemma HookingLeads(v: View, p: Pass, c: Cluster, store: Store, a: Answer, role: Role)
    requires IsGood(a) && IsWorking(v, p, c, Some(Hooking(role)))
    ensures var (w, t) := PassStep(v, store, a);
            t == store && Leads(v, w, PassAt(p, Some(Applying(role, 0, false))), c)
  {
  }

  lemma LookingLeads(v: View, p: Pass, c: Cluster, store: Store, a: Answer, role: Role, i: nat, updated: bool)
    requires IsGood(a) && IsWorking(v, p, c, Some(Applying(role, i, updated)))
    requires i < |p.spec.Objects(role)| ==>
      Compare(store, p.spec.Objects(role)[i]) == Same || Compare(store, p.spec.Objects(role)[i]) == Differs
    ensures var (w, t) := PassStep(v, store, a);
            var next :=
              if i >= |p.spec.Objects(role)| then (if updated then Waiting else Checking(role, 0, true))
              else if Compare(store, p.spec.Objects(role)[i]) == Same then Applying(role, i + 1, updated)
              else if role == Datanode && p.spec.Objects(role)[i].IsStatefulSet() && p.spec.failover
              then Arming(i, updated)
              else Patching(role, i, updated, None);
            t == store && Leads(v, w, PassAt(p, Some(next)), c)
  {
  }

  lemma CreatingLeads(v: View, p: Pass, c: Cluster, store: Store, a: Answer, role: Role, i: nat, updated: bool)
    requires IsGood(a) && IsWorking(v, p, c, Some(Applying(role, i, updated)))
    requires i < |p.spec.Objects(role)| && Compare(store, p.spec.Objects(role)[i]) == Absent
    ensures var (w, t) := PassStep(v, store, a);
      && t == Written(store, p.spec.Objects(role)[i], a.live)
      && w.pass == PassAt(p, Some(Applying(role, i + 1, updated))) && w.cluster == Some(c)
      && w.history == v.history + [Wrote(role, p.spec.Objects(role)[i], Creation)]
  {
  }

  lemma ArmingLeads(v: View, p: Pass, c: Cluster, store: Store, a: Answer, i: nat, updated: bool)
    requires IsGood(a) && IsWorking(v, p, c, Some(Arming(i, updated)))
    requires i < |p.spec.Objects(Datanode)| && p.spec.Objects(Datanode)[i].key in store
    ensures var (w, t) := PassStep(v, store, a);
            var old' := store[p.spec.Objects(Datanode)[i].key].live.template;
            var compared := Some(Comparison(p.spec.Objects(Datanode)[i].template, old'));
            t == store && Leads(v, w, PassAt(p, Some(Patching(Datanode, i, updated, compared))), c)
  {
  }

  lemma PatchingLeads(
      v: View, p: Pass, c: Cluster, store: Store, a: Answer, role: Role, i: nat, updated: bool,
      compared: Option<Comparison>)
    requires IsGood(a) && IsWorking(v, p, c, Some(Patching(role, i, updated, compared)))
    requires i < |p.spec.Objects(role)| && p.spec.Objects(role)[i].key in store
    ensures var (w, t) := PassStep(v, store, a);
      && t == Written(store, p.spec.Objects(role)[i], a.live)
      && Leads(v, w, PassAt(p, Some(Applying(role, i + 1, true))), c)
  {
  }

  lemma DatanodeCheckLeads(v: View, p: Pass, c: Cluster, store: Store, a: Answer, i: nat, ok: bool)
    requires IsGood(a) && IsWorking(v, p, c, Some(Checking(Datanode, i, ok))) && i <= |Watched(p.spec)|
    ensures var (w, t) := PassStep(v, store, a);
            var next := if i < |Watched(p.spec)| then Checking(Datanode, i + 1, ok && !IsUnready(v, store, a))
                        else SavingStatus(Datanode, ok);
            t == store && Leads(v, w, PassAt(p, Some(next)), c)
  {
  }

  lemma OtherCheckLeads(v: View, p: Pass, c: Cluster, store: Store, a: Answer, role: Role, i: nat, ok: bool)
    requires IsGood(a) && IsWorking(v, p, c, Some(Checking(role, i, ok))) && role != Datanode
    ensures var (w, t) := PassStep(v, store, a);
      && t == store
      && exists maintenance: bool ::
           Leads(v, w, PassAt(p.(maintenance := maintenance), Some(SavingStatus(role, a.ready))), c)
  {
    var maintenance := p.maintenance || (role == Meta && a.ready && p.phase == Starting);
    var q := p.(maintenance := maintenance);
    assert Leads(v, PassStep(v, store, a).0, PassAt(q, Some(SavingStatus(role, a.ready))), c);
  }

  lemma SavingLeads(v: View, p: Pass, c: Cluster, store: Store, a: Answer, role: Role, ok: bool)
    requires IsGood(a) && IsWorking(v, p, c, Some(SavingStatus(role, ok)))
    ensures var (w, t) := PassStep(v, store, a);
            var next := if !ok then Some(Waiting) else if role == Datanode then Some(Disarming)
                        else Onward(p.phase, role);
            t == store && Leads(v, w, PassAt(p, next), c.(maintenance := p.maintenance))
  {
  }

  lemma DisarmingLeads(v: View, p: Pass, c: Cluster, store: Store, a: Answer)
    requires IsGood(a) && IsWorking(v, p, c, Some(Disarming))
    ensures var (w, t) := PassStep(v, store, a);
            var next := if v.armed && p.spec.failover then Some(Disarming) else Onward(p.phase, Datanode);
            t == store && Leads(v, w, PassAt(p, next), c) && w.armed == (v.armed && !p.spec.failover)
  {
  }

  lemma WaitingLeads(v: View, p: Pass, c: Cluster, store: Store, a: Answer)
    requires IsGood(a) && IsWorking(v, p, c, Some(Waiting))
    ensures var (w, t) := PassStep(v, store, a);
      && t == store && w.cluster.Some?
      && Leads(v, w, None, c.(phase := NextPhase(c.phase, true), maintenance := w.cluster.value.maintenance))
  {
  }

  lemma ClosingLeads(v: View, p: Pass, c: Cluster, store: Store, a: Answer)
    requires IsGood(a) && IsWorking(v, p, c, Some(Closing))
    ensures var (w, t) := PassStep(v, store, a);
            t == store && Leads(v, w, PassAt(p.(maintenance := false), Some(MarkingRunning)), c)
  {
  }

  lemma RunningLeads(v: View, p: Pass, c: Cluster, store: Store, a: Answer)
    requires IsGood(a) && IsWorking(v, p, c, Some(MarkingRunning))
    ensures var (w, t) := PassStep(v, store, a);
            t == store && Leads(v, w, None, c.(phase := Running, maintenance := p.maintenance))
  {
  }

  // ----- Every step keeps the pass where it should stand -----

  /** The step of a pass that began as `s` leaves it where it should stand. */
  ghost predicate Steady(s: Start, v: View, store: Store, unready: bool, a: Answer)
    requires v.pass.Some? && InBounds(v.pass.value)
  {
    var (w, t) := PassStep(v, store, a);
    Stands(s, w, t, unready || IsUnready(v, store, a))
  }

  /** In progress, within bounds, and with a good answer. */
  ghost predicate IsReadyToStep(s: Start, v: View, store: Store, unready: bool, a: Answer)
  {
    Stands(s, v, store, unready) && v.pass.Some? && InBounds(v.pass.value) && IsBenignStep(v, a)
  }

  lemma StandsInBounds(s: Start, v: View, store: Store, unready: bool)
    requires Stands(s, v, store, unready) && v.pass.Some?
    ensures InBounds(v.pass.value)
  {
  }

  /** A step that leads to a point where what must hold there holds. */
  lemma Lands(s: Start, v: View, w: View, t: Store, p: Pass, d: Cluster, pc: Pc, unready: bool)
    requires IsFair(s) && IsLogged(s, v.history) && Improved(s.store, t, s.Spec()) && !IsPrologue(pc)
    requires Leads(v, w, Some(p.(pc := pc)), d) && d.phase == p.phase && IsLive(p.phase) && p.spec == s.Spec()
    requires d == Made(s.cluster).(maintenance := d.maintenance) && IsAt(s, t, p.phase, pc, unready)
    ensures Stands(s, w, t, unready)
  {
    StaysLogged(s, v.history, w.history);
  }

  lemma Ends(s: Start, v: View, w: View, t: Store, d: Cluster, unready: bool)
    requires IsFair(s) && IsLogged(s, v.history) && Improved(s.store, t, s.Spec()) && Leads(v, w, None, d)
    requires d == Made(s.cluster).(phase := NextPhase(s.cluster.phase, HasWaited(s, unready)),
                                   maintenance := d.maintenance)
    requires if HasWaited(s, unready) then SomeSettled(s.store, t, s.Spec()) else AllSettled(t, s.Spec())
    ensures Stands(s, w, t, unready)
  {
    StaysLogged(s, v.history, w.history);
  }

  lemma EarlySteady(s: Start, v: View, store: Store, unready: bool, a: Answer)
    requires IsReadyToStep(s, v, store, unready, a) && IsPrologue(v.pass.value.pc) && !v.pass.value.pc.Preparing?
    ensures Steady(s, v, store, unready, a)
  {
    var pc := v.pass.value.pc;
    var next := if pc.AddingFinalizer? then Validating else if pc.Validating? then SavingSpec
                else if pc.SavingSpec? then MarkingStarting else Preparing;
    PrologueLeads(v, s.cluster, store, a, pc, next);
    StaysLogged(s, v.history, PassStep(v, store, a).0.history);
  }

  lemma PreparingSteady(s: Start, v: View, store: Store, unready: bool, a: Answer)
    requires IsReadyToStep(s, v, store, unready, a) && v.pass.value.pc.Preparing?
    ensures Steady(s, v, store, unready, a)
  {
    var c := Made(s.cluster);
    PreparingLeads(v, c, store, a);
    Lands(s, v, PassStep(v, store, a).0, store, PassOf(c, Preparing), c, Generating(Monitoring), false);
  }

  /** All deployers up to `role` have their objects in place. */
  lemma AppliedBelow(s: Start, store: Store, role: Role)
    requires IsApplied(s, store, role)
    ensures role != Flownode ==> SettledBelow(store, s.Spec(), NextRole(role))
    ensures role == Flownode ==> IsDone(s, store, false)
  {
    var spec := s.Spec();
    forall r: Role | Rank(r) <= Rank(role)
      ensures Settled(store, spec.Objects(r))
    {
      assert Rank(r) == Rank(role) ==> r == role;
    }
    if role == Flownode {
      assert forall r: Role :: Rank(r) <= Rank(Flownode);
      GrownAndSettled(s.store, store, spec);
    }
  }

  /** A deployer has succeeded. */
  lemma OnwardSteady(s: Start, v: View, w: View, t: Store, p: Pass, d: Cluster, role: Role)
    requires IsFair(s) && IsLogged(s, v.history) && IsApplied(s, t, role)
    requires Leads(v, w, PassAt(p, Onward(p.phase, role)), d) && d.phase == p.phase && IsLive(p.phase)
    requires p.spec == s.Spec() && d == Made(s.cluster).(maintenance := d.maintenance)
    ensures Stands(s, w, t, false)
  {
    AppliedBelow(s, t, role);
    if role != Flownode {
      Lands(s, v, w, t, p, d, Generating(NextRole(role)), false);
    } else if p.phase == Starting || p.phase == Updating {
      Lands(s, v, w, t, p, d, Closing, false);
    } else {
      Ends(s, v, w, t, d, false);
    }
  }

  lemma GeneratingSteady(s: Start, v: View, store: Store, unready: bool, a: Answer)
    requires IsReadyToStep(s, v, store, unready, a) && v.pass.value.pc.Generating?
    ensures Steady(s, v, store, unready, a)
  {
    var p, d := v.pass.value, v.cluster.value;
    var role := p.pc.role;
    GeneratingLeads(v, p, d, store, a, role);
    if p.spec.Objects(role) == [] {
      OnwardSteady(s, v, PassStep(v, store, a).0, store, p, d, role);
    } else {
      Lands(s, v, PassStep(v, store, a).0, store, p, d, Hooking(role), false);
    }
  }

  lemma HookingSteady(s: Start, v: View, store: Store, unready: bool, a: Answer)
    requires IsReadyToStep(s, v, store, unready, a) && v.pass.value.pc.Hooking?
    ensures Steady(s, v, store, unready, a)
  {
    var p, d := v.pass.value, v.cluster.value;
    HookingLeads(v, p, d, store, a, p.pc.role);
    Lands(s, v, PassStep(v, store, a).0, store, p, d, Applying(p.pc.role, 0, false), false);
  }

  /** The apply loop has come to its end. */
  lemma LoopEnds(s: Start, store: Store, role: Role, updated: bool)
    requires IsApplying(s, store, role, |s.Spec().Objects(role)|, updated)
    ensures updated ==> SomeSettled(s.store, store, s.Spec()) && NeedsPatch(s.store, s.Spec())
    ensures !updated ==> IsChecking(s, store, role, true, false)
  {
    var ds := s.Spec().Objects(role);
    assert ds[..|ds|] == ds;
    if updated {
      var d :| d in ds && IsDifferent(s.store, d);
      assert Wanted(s.Spec(), d);
      assert !Settled(s.store, ds) && Settled(store, ds);
    }
  }

  /** At the end of the loop: something was patched. */
  lemma UpdatedSteady(s: Start, v: View, store: Store, unready: bool, a: Answer)
    requires IsReadyToStep(s, v, store, unready, a) && v.pass.value.pc.Applying? && v.pass.value.pc.updated
    requires v.pass.value.pc.i >= |s.Spec().Objects(v.pass.value.pc.role)|
    ensures Steady(s, v, store, unready, a)
  {
    var p, d := v.pass.value, v.cluster.value;
    LookingLeads(v, p, d, store, a, p.pc.role, p.pc.i, p.pc.updated);
    LoopEnds(s, store, p.pc.role, p.pc.updated);
    Lands(s, v, PassStep(v, store, a).0, store, p, d, Waiting, false);
  }

  /** At the end of the loop: nothing was patched. */
  lemma SyncedSteady(s: Start, v: View, store: Store, unready: bool, a: Answer)
    requires IsReadyToStep(s, v, store, unready, a) && v.pass.value.pc.Applying? && !v.pass.value.pc.updated
    requires v.pass.value.pc.i >= |s.Spec().Objects(v.pass.value.pc.role)|
    ensures Steady(s, v, store, unready, a)
  {
    var p, d := v.pass.value, v.cluster.value;
    LookingLeads(v, p, d, store, a, p.pc.role, p.pc.i, p.pc.updated);
    LoopEnds(s, store, p.pc.role, p.pc.updated);
    Lands(s, v, PassStep(v, store, a).0, store, p, d, Checking(p.pc.role, 0, true), false);
  }

  lemma SameSteady(s: Start, v: View, store: Store, unready: bool, a: Answer)
    requires IsReadyToStep(s, v, store, unready, a) && v.pass.value.pc.Applying?
    requires v.pass.value.pc.i < |s.Spec().Objects(v.pass.value.pc.role)|
    requires Compare(store, s.Spec().Objects(v.pass.value.pc.role)[v.pass.value.pc.i]) == Same
    ensures Steady(s, v, store, unready, a)
  {
    var p, d := v.pass.value, v.cluster.value;
    var Applying(role, i, updated) := p.pc;
    LookingLeads(v, p, d, store, a, role, i, updated);
    OneMoreSettled(store, s.Spec().Objects(role), i);
    Lands(s, v, PassStep(v, store, a).0, store, p, d, Applying(role, i + 1, updated), false);
  }

  lemma DiffersSteady(s: Start, v: View, store: Store, unready: bool, a: Answer)
    requires IsReadyToStep(s, v, store, unready, a) && v.pass.value.pc.Applying?
    requires v.pass.value.pc.i < |s.Spec().Objects(v.pass.value.pc.role)|
    requires Compare(store, s.Spec().Objects(v.pass.value.pc.role)[v.pass.value.pc.i]) == Differs
    ensures Steady(s, v, store, unready, a)
  {
    var p, d := v.pass.value, v.cluster.value;
    var Applying(role, i, updated) := p.pc;
    LookingLeads(v, p, d, store, a, role, i, updated);
    var next := if role == Datanode && p.spec.Objects(role)[i].IsStatefulSet() && p.spec.failover
                then Arming(i, updated) else Patching(role, i, updated, None);
    Lands(s, v, PassStep(v, store, a).0, store, p, d, next, false);
  }

  /** What a write leaves of the loop. */
  lemma WriteApplies(s: Start, store: Store, role: Role, i: nat, updated: bool, live: Live)
    requires IsFair(s) && Improved(s.store, store, s.Spec()) && IsApplying(s, store, role, i, updated)
    requires i < |s.Spec().Objects(role)|
    requires var f := Compare(store, s.Spec().Objects(role)[i]); f == Absent || f == Differs
    ensures var d := s.Spec().Objects(role)[i];
            var t := Written(store, d, live);
      && Improved(s.store, t, s.Spec())
      && IsApplying(s, t, role, i + 1, updated || Compare(store, d) == Differs)
      && (!updated && Compare(store, d) == Absent ==> d.key !in s.store)
  {
    var d := s.Spec().Objects(role)[i];
    WriteSettlesOneMore(store, s.Spec(), role, i, live);
    WriteImproves(s.store, store, s.Spec(), d, live);
    WriteKeepsBelow(store, s.Spec(), d, live, role);
    if !updated {
      if Compare(store, d) == Absent {
        CreateGrows(s.store, store, s.Spec(), d, live);
      } else {
        GrownDiffers(s.store, store, s.Spec(), d);
        assert d in s.Spec().Objects(role);
      }
    }
  }

  /** What is missing during the loop was missing when the pass began. */
  lemma MissingWasMissing(s: Start, store: Store, d: Desired)
    requires Improved(s.store, store, s.Spec()) && Wanted(s.Spec(), d) && d.key !in store
    ensures d.key !in s.store
  {
    assert IsImproved(s.store, store, d);
  }

  lemma CreateSteady(s: Start, v: View, store: Store, unready: bool, a: Answer)
    requires IsReadyToStep(s, v, store, unready, a) && v.pass.value.pc.Applying?
    requires v.pass.value.pc.i < |s.Spec().Objects(v.pass.value.pc.role)|
    requires Compare(store, s.Spec().Objects(v.pass.value.pc.role)[v.pass.value.pc.i]) == Absent
    ensures Steady(s, v, store, unready, a)
  {
    var p, c := v.pass.value, v.cluster.value;
    var Applying(role, i, updated) := p.pc;
    var d := s.Spec().Objects(role)[i];
    CreatingLeads(v, p, c, store, a, role, i, updated);
    WriteApplies(s, store, role, i, updated, a.live);
    assert d in s.Spec().Objects(role) && Wanted(s.Spec(), d);
    MissingWasMissing(s, store, d);
    CreationIsLogged(s, v.history, Wrote(role, d, Creation));
  }

  lemma ArmingSteady(s: Start, v: View, store: Store, unready: bool, a: Answer)
    requires IsReadyToStep(s, v, store, unready, a) && v.pass.value.pc.Arming?
    ensures Steady(s, v, store, unready, a)
  {
    var p, d := v.pass.value, v.cluster.value;
    var Arming(i, updated) := p.pc;
    ArmingLeads(v, p, d, store, a, i, updated);
    var old' := store[p.spec.Objects(Datanode)[i].key].live.template;
    var compared := Some(Comparison(p.spec.Objects(Datanode)[i].template, old'));
    Lands(s, v, PassStep(v, store, a).0, store, p, d, Patching(Datanode, i, updated, compared), false);
  }

  lemma PatchSteady(s: Start, v: View, store: Store, unready: bool, a: Answer)
    requires IsReadyToStep(s, v, store, unready, a) && v.pass.value.pc.Patching?
    ensures Steady(s, v, store, unready, a)
  {
    var p, d := v.pass.value, v.cluster.value;
    var Patching(role, i, updated, compared) := p.pc;
    PatchingLeads(v, p, d, store, a, role, i, updated, compared);
    WriteApplies(s, store, role, i, updated, a.live);
    var t := PassStep(v, store, a).1;
    Lands(s, v, PassStep(v, store, a).0, t, p, d, Applying(role, i + 1, true), false);
  }

  lemma DatanodeCheckSteady(s: Start, v: View, store: Store, unready: bool, a: Answer)
    requires IsReadyToStep(s, v, store, unready, a) && v.pass.value.pc.Checking? && v.pass.value.pc.role == Datanode
    ensures Steady(s, v, store, unready, a)
  {
    var p, d := v.pass.value, v.cluster.value;
    var Checking(_, i, ok) := p.pc;
    DatanodeCheckLeads(v, p, d, store, a, i, ok);
    if IsUnready(v, store, a) {
      assert Watched(p.spec)[i] in Watched(p.spec);
      UnreadyIsNew(s.store, store, s.Spec(), Watched(p.spec)[i]);
    }
    var next := if i < |Watched(p.spec)| then Checking(Datanode, i + 1, ok && !IsUnready(v, store, a))
                else SavingStatus(Datanode, ok);
    Lands(s, v, PassStep(v, store, a).0, store, p, d, next, unready || IsUnready(v, store, a));
  }

  lemma OtherCheckSteady(s: Start, v: View, store: Store, unready: bool, a: Answer)
    requires IsReadyToStep(s, v, store, unready, a) && v.pass.value.pc.Checking? && v.pass.value.pc.role != Datanode
    ensures Steady(s, v, store, unready, a)
  {
    var p, d := v.pass.value, v.cluster.value;
    var Checking(role, i, ok) := p.pc;
    OtherCheckLeads(v, p, d, store, a, role, i, ok);
    if !a.ready {
      CreatorWasUnsettled(s, v.history, role);
    }
    var w := PassStep(v, store, a).0;
    var maintenance: bool :| Leads(v, w, PassAt(p.(maintenance := maintenance), Some(SavingStatus(role, a.ready))), d);
    Lands(s, v, w, store, p.(maintenance := maintenance), d, SavingStatus(role, a.ready), !a.ready);
  }

  lemma SavingSteady(s: Start, v: View, store: Store, unready: bool, a: Answer)
    requires IsReadyToStep(s, v, store, unready, a) && v.pass.value.pc.SavingStatus?
    ensures Steady(s, v, store, unready, a)
  {
    var p, d := v.pass.value, v.cluster.value.(maintenance := v.pass.value.maintenance);
    var SavingStatus(role, ok) := p.pc;
    var w := PassStep(v, store, a).0;
    SavingLeads(v, p, v.cluster.value, store, a, role, ok);
    if !ok {
      Lands(s, v, w, store, p, d, Waiting, true);
    } else if role == Datanode {
      Lands(s, v, w, store, p, d, Disarming, false);
    } else {
      OnwardSteady(s, v, w, store, p, d, role);
    }
  }

  lemma DisarmingSteady(s: Start, v: View, store: Store, unready: bool, a: Answer)
    requires IsReadyToStep(s, v, store, unready, a) && v.pass.value.pc.Disarming?
    ensures Steady(s, v, store, unready, a)
  {
    var p, d, w := v.pass.value, v.cluster.value, PassStep(v, store, a).0;
    DisarmingLeads(v, p, d, store, a);
    if v.armed && p.spec.failover {
      Lands(s, v, w, store, p, d, Disarming, false);
    } else {
      OnwardSteady(s, v, w, store, p, d, Datanode);
    }
  }

  lemma EpilogueSteady(s: Start, v: View, store: Store, unready: bool, a: Answer)
    requires IsReadyToStep(s, v, store, unready, a)
    requires v.pass.value.pc.Waiting? || v.pass.value.pc.Closing? || v.pass.value.pc.MarkingRunning?
    ensures Steady(s, v, store, unready, a)
  {
    var p, d, w := v.pass.value, v.cluster.value, PassStep(v, store, a).0;
    if p.pc.Waiting? {
      WaitingLeads(v, p, d, store, a);
      Ends(s, v, w, store, w.cluster.value, unready);
    } else if p.pc.Closing? {
      ClosingLeads(v, p, d, store, a);
      Lands(s, v, w, store, p.(maintenance := false), d, MarkingRunning, false);
    } else {
      RunningLeads(v, p, d, store, a);
      Ends(s, v, w, store, w.cluster.value, false);
    }
  }

  lemma ApplyingSteady(s: Start, v: View, store: Store, unready: bool, a: Answer)
    requires IsReadyToStep(s, v, store, unready, a) && v.pass.value.pc.Applying?
    ensures Steady(s, v, store, unready, a)
  {
    var ds, i := s.Spec().Objects(v.pass.value.pc.role), v.pass.value.pc.i;
    if i >= |ds| {
      if v.pass.value.pc.updated {
        UpdatedSteady(s, v, store, unready, a);
      } else {
        SyncedSteady(s, v, store, unready, a);
      }
    } else {
      assert Wanted(s.Spec(), ds[i]);
      ImprovedIsReadable(s.store, store, s.Spec());
      if Compare(store, ds[i]) == Same {
        SameSteady(s, v, store, unready, a);
      } else if Compare(store, ds[i]) == Differs {
        DiffersSteady(s, v, store, unready, a);
      } else {
        CreateSteady(s, v, store, unready, a);
      }
    }
  }

  /** Every benign step of a pass leaves it where it should stand. */
  lemma StepIsSteady(s: Start, v: View, store: Store, unready: bool, a: Answer)
    requires IsReadyToStep(s, v, store, unready, a)
    ensures Steady(s, v, store, unready, a)
  {
    var pc := v.pass.value.pc;
    if pc.Preparing? {
      PreparingSteady(s, v, store, unready, a);
    } else if IsPrologue(pc) {
      EarlySteady(s, v, store, unready, a);
    } else if pc.Generating? {
      GeneratingSteady(s, v, store, unready, a);
    } else if pc.Hooking? {
      HookingSteady(s, v, store, unready, a);
    } else if pc.Applying? {
      ApplyingSteady(s, v, store, unready, a);
    } else if pc.Arming? {
      ArmingSteady(s, v, store, unready, a);
    } else if pc.Patching? {
      PatchSteady(s, v, store, unready, a);
    } else if pc.Checking? {
      if pc.role == Datanode {
        DatanodeCheckSteady(s, v, store, unready, a);
      } else {
        OtherCheckSteady(s, v, store, unready, a);
      }
    } else if pc.SavingStatus? {
      SavingSteady(s, v, store, unready, a);
    } else if pc.Disarming? {
      DisarmingSteady(s, v, store, unready, a);
    } else {
      EpilogueSteady(s, v, store, unready, a);
    }
  }

  // ----- What others do in between -----

  lemma BelowLasts(store: Store, after: Store, spec: Spec, role: Role)
    requires OnlyLive(store, after, spec) && SettledBelow(store, spec, role)
    ensures SettledBelow(after, spec, role)
  {
    forall r: Role | Rank(r) < Rank(role)
      ensures Settled(after, spec.Objects(r))
    {
      LiveKeepsRole(store, after, spec, r);
    }
  }

  /** Others change only the live parts of the desired objects, and make nothing unready. */
  ghost predicate IsHarmless(before: Store, after: Store, spec: Spec)
  {
    OnlyLive(before, after, spec) && ReadyLasts(before, after, spec)
  }

  lemma ApplyingLasts(s: Start, store: Store, after: Store, role: Role, i: nat, updated: bool)
    requires IsApplying(s, store, role, i, updated) && IsHarmless(store, after, s.Spec())
    ensures IsApplying(s, after, role, i, updated)
  {
    BelowLasts(store, after, s.Spec(), role);
    LiveKeepsSettled(store, after, s.Spec(), role, i);
    if !updated {
      LiveKeepsGrown(s.store, store, after, s.Spec());
    }
  }

  lemma PatchingLasts(s: Start, store: Store, after: Store, role: Role, i: nat, updated: bool)
    requires IsPatching(s, store, role, i, updated) && IsHarmless(store, after, s.Spec())
    ensures IsPatching(s, after, role, i, updated)
  {
    ApplyingLasts(s, store, after, role, i, updated);
    assert Wanted(s.Spec(), s.Spec().Objects(role)[i]);
    LiveKeepsFindings(store, after, s.Spec(), s.Spec().Objects(role)[i]);
  }

  lemma AppliedLasts(s: Start, store: Store, after: Store, role: Role)
    requires IsApplied(s, store, role) && IsHarmless(store, after, s.Spec())
    ensures IsApplied(s, after, role)
  {
    BelowLasts(store, after, s.Spec(), role);
    LiveKeepsRole(store, after, s.Spec(), role);
    LiveKeepsGrown(s.store, store, after, s.Spec());
  }

  lemma SettledLasts(s: Start, store: Store, after: Store)
    requires OnlyLive(store, after, s.Spec())
    ensures SomeSettled(s.store, store, s.Spec()) ==> SomeSettled(s.store, after, s.Spec())
    ensures AllSettled(store, s.Spec()) ==> AllSettled(after, s.Spec())
  {
    forall r: Role
      ensures Settled(store, s.Spec().Objects(r)) <==> Settled(after, s.Spec().Objects(r))
    {
      LiveKeepsRole(store, after, s.Spec(), r);
    }
  }

  lemma PointLasts(s: Start, store: Store, after: Store, phase: Phase, pc: Pc, unready: bool)
    requires IsAt(s, store, phase, pc, unready) && IsHarmless(store, after, s.Spec())
    ensures IsAt(s, after, phase, pc, unready)
  {
    if pc.Generating? || pc.Hooking? {
      BelowLasts(store, after, s.Spec(), pc.role);
      LiveKeepsGrown(s.store, store, after, s.Spec());
    } else if pc.Applying? {
      ApplyingLasts(s, store, after, pc.role, pc.i, pc.updated);
    } else if pc.Arming? {
      PatchingLasts(s, store, after, Datanode, pc.i, pc.updated);
    } else if pc.Patching? {
      PatchingLasts(s, store, after, pc.role, pc.i, pc.updated);
    } else if pc.Checking? || pc.SavingStatus? {
      AppliedLasts(s, store, after, pc.role);
    } else if pc.Disarming? {
      AppliedLasts(s, store, after, Datanode);
    } else {
      SettledLasts(s, store, after);
    }
  }

  /** What others do while the pass is in progress leaves it where it should stand. */
  lemma OthersAreSteady(s: Start, v: View, store: Store, unready: bool, after: Store)
    requires Stands(s, v, store, unready) && v.pass.Some? && IsHarmless(store, after, s.Spec())
    ensures Stands(s, v, after, unready)
  {
    var p := v.pass.value;
    LiveKeepsImproved(s.store, store, after, s.Spec());
    if IsPrologue(p.pc) {
      LiveKeepsGrown(s.store, store, after, s.Spec());
    } else {
      PointLasts(s, store, after, p.phase, p.pc, unready);
    }
  }

  // ----- The beginning -----

  lemma NothingYet(s: Start)
    ensures Grown(s.store, s.store, s.Spec())
  {
  }

  /** A pass that has just begun stands where it should. */
  lemma BeginningStands(s: Start, v: View)
    requires IsFair(s) && HasRead(v, s.cluster) && IsLogged(s, v.history)
    ensures Stands(s, v, s.store, false)
  {
    NothingYet(s);
  }
}
