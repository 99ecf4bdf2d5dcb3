/**
 The counterpart of the safety theorems: what a pass without failures makes of a cluster whose
 objects are applied and ready. It makes it Running exactly if the phase it read was not Error. Two
 runs show what is left behind when region failover is switched off in between, and when phase Error
 is entered during creation.
 */
module Progress {
  import opened Text
  import Names
  import opened Resources
  import Apply
  import opened Machine
  import Theorems
  import opened Reconciler

  /** `q` is reached from `p` by steps of the pass alone, all of which succeed. */
  ghost predicate Follows(p: Place, q: Place)
  {
    && p.run <= q.run && q.k == p.k && q.store == p.store
    && forall i :: |p.run| <= i < |q.run| ==> q.run[i] == Step(p.k, QUIET)
  }

  predicate IsLive(phase: Phase)
  {
    phase != Unset && phase != Terminating
  }

  function PassAt(p: Pass, at: Option<Pc>): Option<Pass>
  {
    match at case None => None case Some(pc) => Some(p.(pc := pc))
  }

  /** A pass of a live cluster whose deployers are at work, or have just finished. */
  predicate IsWorking(v: View, p: Pass, c: Cluster, at: Option<Pc>)
  {
    v.pass == PassAt(p, at) && v.cluster == Some(c) && c.phase == p.phase && IsLive(p.phase)
  }

  /** The objects of one deployer are in place, and the datanodes ready. */
  ghost predicate InPlace(store: Store, spec: Spec, role: Role)
  {
    && Apply.Settled(store, spec.Objects(role))
    && (role == Datanode ==> WatchedReady(store, spec))
  }

  ghost predicate WatchedReady(store: Store, spec: Spec)
  {
    forall key :: key in Watched(spec) ==> key in store && IsStatefulSetReady(store[key])
  }

  /** One step of the pass, with a good answer. */
  lemma Advanced(p: Place) returns (q: Place)
    requires p.view.pass.Some? && InBounds(p.view.pass.value)
    requires PassStep(p.view, p.store, QUIET).1 == p.store
    ensures Follows(p, q) && q.view == PassStep(p.view, p.store, QUIET).0
  {
    q := Extended(p, Step(p.k, QUIET));
  }

  // ----- The stretches of a pass -----

  /** Nothing differs, so the loop over the objects comes to its end. */
  lemma {:induction false} Applied(p: Place, pass: Pass, role: Role, i: nat) returns (q: Place)
    requires p.view.pass == Some(pass.(pc := Applying(role, i, false))) && i <= |pass.spec.Objects(role)|
    requires Apply.Settled(p.store, pass.spec.Objects(role))
    ensures Follows(p, q) && q.view == p.view.(pass := Some(pass.(pc := Checking(role, 0, true))))
    decreases |pass.spec.Objects(role)| - i
  {
    var ds := pass.spec.Objects(role);
    ApplyingStep(p.view, pass, p.store, role, i);
    q := Advanced(p);
    if i < |ds| {
      q := Applied(q, pass, role, i + 1);
    }
  }

  lemma ApplyingStep(v: View, pass: Pass, store: Store, role: Role, i: nat)
    requires v.pass == Some(pass.(pc := Applying(role, i, false))) && i <= |pass.spec.Objects(role)|
    requires Apply.Settled(store, pass.spec.Objects(role))
    ensures var next := if i < |pass.spec.Objects(role)| then Applying(role, i + 1, false) else Checking(role, 0, true);
            PassStep(v, store, QUIET) == (v.(pass := Some(pass.(pc := next))), store)
  {
    var ds := pass.spec.Objects(role);
    if i < |ds| {
      assert ds[i] in ds && IsStored(store, ds[i]);
    }
  }

  /** Nothing that was added to a history opened a pass. */
  predicate NoneBegan(g: seq<Event>, h: seq<Event>)
  {
    g <= h && forall i :: |g| <= i < |h| ==> !h[i].Began?
  }

  /** The view with something added to its history, but no new pass. */
  predicate Same(v: View, w: View)
  {
    w == v.(history := w.history) && NoneBegan(v.history, w.history)
  }

  lemma {:induction false} Observing(p: Place, pass: Pass, i: nat) returns (q: Place)
    requires p.view.pass == Some(pass.(pc := Checking(Datanode, i, true))) && i <= |Watched(pass.spec)|
    requires WatchedReady(p.store, pass.spec)
    ensures Follows(p, q) && Same(p.view.(pass := Some(pass.(pc := SavingStatus(Datanode, true)))), q.view)
    decreases |Watched(pass.spec)| - i
  {
    var keys := Watched(pass.spec);
    ObservingStep(p.view, pass, p.store, i);
    q := Advanced(p);
    if i < |keys| {
      q := Observing(q, pass, i + 1);
    }
  }

  lemma ObservingStep(v: View, pass: Pass, store: Store, i: nat)
    requires v.pass == Some(pass.(pc := Checking(Datanode, i, true))) && i <= |Watched(pass.spec)|
    requires WatchedReady(store, pass.spec)
    ensures var next := if i < |Watched(pass.spec)| then Checking(Datanode, i + 1, true)
                        else SavingStatus(Datanode, true);
            && Same(v.(pass := Some(pass.(pc := next))), PassStep(v, store, QUIET).0)
            && PassStep(v, store, QUIET).1 == store
  {
    var keys := Watched(pass.spec);
    if i < |keys| {
      assert keys[i] in keys;
    }
  }

  /** What a deployer's check leaves in memory and at the metasrv. */
  function Maintained(p: Pass, role: Role): bool
  {
    p.maintenance || (role == Meta && p.phase == Starting)
  }

  function OnAfterCheck(v: View, p: Pass, role: Role): bool
  {
    v.on || (role == Meta && p.phase == Starting && !p.maintenance)
  }

  lemma Checked(p: Place, pass: Pass, role: Role) returns (q: Place)
    requires p.view.pass == Some(pass.(pc := Checking(role, 0, true)))
    requires role == Datanode ==> WatchedReady(p.store, pass.spec)
    ensures Follows(p, q)
    ensures Same(p.view.(pass := Some(pass.(maintenance := Maintained(pass, role), pc := SavingStatus(role, true))),
                         on := OnAfterCheck(p.view, pass, role)), q.view)
  {
    if role == Datanode {
      q := Observing(p, pass, 0);
    } else {
      CheckingStep(p.view, pass, p.store, role);
      q := Advanced(p);
    }
  }

  lemma CheckingStep(v: View, pass: Pass, store: Store, role: Role)
    requires v.pass == Some(pass.(pc := Checking(role, 0, true))) && role != Datanode
    ensures PassStep(v, store, QUIET).1 == store
    ensures Same(v.(pass := Some(pass.(maintenance := Maintained(pass, role), pc := SavingStatus(role, true))),
                    on := OnAfterCheck(v, pass, role)), PassStep(v, store, QUIET).0)
  {
  }

  /** Where a successful deployer leads: after the last one only a starting or updating cluster has something to do. */
  function Onward(phase: Phase, role: Role): Option<Pc>
  {
    if role != Flownode then Some(Generating(NextRole(role)))
    else if phase == Starting || phase == Updating then Some(Closing)
    else None
  }

  lemma SavingStep(v: View, pass: Pass, c: Cluster, store: Store, role: Role)
    requires IsWorking(v, pass, c, Some(SavingStatus(role, true)))
    ensures PassStep(v, store, QUIET).1 == store
    ensures Same(v.(pass := PassAt(pass, if role == Datanode then Some(Disarming) else Onward(pass.phase, role)),
                    cluster := Some(c.(maintenance := pass.maintenance))), PassStep(v, store, QUIET).0)
  {
  }

  lemma DisarmingStep(v: View, pass: Pass, c: Cluster, store: Store)
    requires IsWorking(v, pass, c, Some(Disarming))
    ensures PassStep(v, store, QUIET).1 == store
    ensures Same(if v.armed && pass.spec.failover then v.(armed := false, on := false)
                 else v.(pass := PassAt(pass, Onward(pass.phase, Datanode))), PassStep(v, store, QUIET).0)
  {
  }

  /** The hook of the datanode deployer clears an armed flag, if region failover is still on. */
  lemma Disarmed(p: Place, pass: Pass, c: Cluster) returns (q: Place)
    requires IsWorking(p.view, pass, c, Some(Disarming))
    ensures Follows(p, q)
    ensures var w := p.view.(pass := PassAt(pass, Onward(pass.phase, Datanode)));
            Same(if p.view.armed && pass.spec.failover then w.(armed := false, on := false) else w, q.view)
  {
    DisarmingStep(p.view, pass, c, p.store);
    q := Advanced(p);
    if p.view.armed && pass.spec.failover {
      DisarmingStep(q.view, pass, c, p.store);
      q := Advanced(q);
    }
  }

  lemma GeneratingStep(v: View, pass: Pass, c: Cluster, store: Store, role: Role)
    requires IsWorking(v, pass, c, Some(Generating(role)))
    ensures PassStep(v, store, QUIET).1 == store
    ensures var next := if pass.spec.Objects(role) == [] then Onward(pass.phase, role) else Some(Hooking(role));
            Same(v.(pass := PassAt(pass, next)), PassStep(v, store, QUIET).0)
  {
  }

  lemma HookingStep(v: View, pass: Pass, c: Cluster, store: Store, role: Role)
    requires IsWorking(v, pass, c, Some(Hooking(role)))
    ensures PassStep(v, store, QUIET) == (v.(pass := Some(pass.(pc := Applying(role, 0, false)))), store)
  {
  }

  predicate HookClears(v: View, p: Pass, role: Role)
  {
    role == Datanode && v.armed && HookRuns(p.spec)
  }

  /** From generating to checking. */
  lemma Unchanging(p: Place, pass: Pass, c: Cluster, role: Role) returns (q: Place)
    requires IsWorking(p.view, pass, c, Some(Generating(role))) && Apply.Settled(p.store, pass.spec.Objects(role))
    requires pass.spec.Objects(role) != []
    ensures Follows(p, q) && Same(p.view.(pass := Some(pass.(pc := Checking(role, 0, true)))), q.view)
  {
    GeneratingStep(p.view, pass, c, p.store, role);
    q := Advanced(p);
    HookingStep(q.view, pass, c, q.store, role);
    q := Advanced(q);
    q := Applied(q, pass, role, 0);
  }

  /** From checking to the success of the deployer. */
  lemma Concluding(p: Place, pass: Pass, c: Cluster, role: Role) returns (q: Place, d: Cluster)
    requires IsWorking(p.view, pass, c, Some(Checking(role, 0, true)))
    requires role == Datanode ==> WatchedReady(p.store, pass.spec)
    ensures Follows(p, q) && d == c.(maintenance := Maintained(pass, role))
    ensures var clears := role == Datanode && p.view.armed && pass.spec.failover;
            var after := pass.(maintenance := Maintained(pass, role));
            Same(p.view.(pass := PassAt(after, Onward(pass.phase, role)), cluster := Some(d),
                         armed := p.view.armed && !clears, on := OnAfterCheck(p.view, pass, role) && !clears), q.view)
  {
    q := Checked(p, pass, role);
    var after := pass.(maintenance := Maintained(pass, role));
    SavingStep(q.view, after, c, q.store, role);
    q := Advanced(q);
    d := c.(maintenance := after.maintenance);
    if role == Datanode {
      q := Disarmed(q, after, d);
    }
  }

  lemma Skipping(p: Place, pass: Pass, c: Cluster, role: Role) returns (q: Place)
    requires IsWorking(p.view, pass, c, Some(Generating(role))) && pass.spec.Objects(role) == []
    ensures Follows(p, q) && Same(p.view.(pass := PassAt(pass, Onward(pass.phase, role))), q.view)
  {
    GeneratingStep(p.view, pass, c, p.store, role);
    q := Advanced(p);
  }

  /** What the success of a deployer does to the view. */
  predicate HasSucceeded(v: View, w: View, pass: Pass, c: Cluster, d: Cluster, role: Role)
  {
    && NoneBegan(v.history, w.history)
    && d == c.(maintenance := d.maintenance)
    && (d.maintenance == c.maintenance || d.maintenance == Maintained(pass, role))
    && (role == Meta ==> d.maintenance == Maintained(pass, role))
    && IsWorking(w, pass.(maintenance := Maintained(pass, role)), d, Onward(pass.phase, role))
    && w.armed == (v.armed && !HookClears(v, pass, role))
    && w.on == (OnAfterCheck(v, pass, role) && !HookClears(v, pass, role))
  }

  lemma ConcludedIsSuccess(v: View, w: View, pass: Pass, c: Cluster, role: Role)
    requires v.cluster == Some(c) && c.phase == pass.phase && IsLive(pass.phase) && pass.spec.Objects(role) != []
    requires var clears := role == Datanode && v.armed && pass.spec.failover;
             var after := pass.(maintenance := Maintained(pass, role));
             Same(v.(pass := PassAt(after, Onward(pass.phase, role)),
                 cluster := Some(c.(maintenance := after.maintenance)),
                     armed := v.armed && !clears, on := OnAfterCheck(v, pass, role) && !clears), w)
    ensures HasSucceeded(v, w, pass, c, c.(maintenance := Maintained(pass, role)), role)
  {
  }

  lemma Working(p: Place, pass: Pass, c: Cluster, role: Role) returns (q: Place, d: Cluster)
    requires IsWorking(p.view, pass, c, Some(Generating(role)))
    requires InPlace(p.store, pass.spec, role) && pass.spec.Objects(role) != []
    ensures Follows(p, q) && HasSucceeded(p.view, q.view, pass, c, d, role)
  {
    var checking := Unchanging(p, pass, c, role);
    q, d := Concluding(checking, pass, c, role);
    ConcludedIsSuccess(checking.view, q.view, pass, c, role);
  }

  /** One deployer whose objects are in place succeeds, in every live phase, with these effects and no others. */
  lemma Succeeding(p: Place, pass: Pass, c: Cluster, role: Role) returns (q: Place, d: Cluster)
    requires IsWorking(p.view, pass, c, Some(Generating(role))) && InPlace(p.store, pass.spec, role)
    ensures Follows(p, q) && HasSucceeded(p.view, q.view, pass, c, d, role)
  {
    if pass.spec.Objects(role) == [] {
      d := c;
      q := Skipping(p, pass, c, role);
    } else {
      q, d := Working(p, pass, c, role);
    }
  }

  // ----- The whole pass -----

  ghost predicate AllInPlace(store: Store, spec: Spec)
  {
    forall role: Role :: InPlace(store, spec, role)
  }

  /** All five deployers, in order. */
  lemma AllSucceeding(p: Place, pass: Pass, c: Cluster) returns (q: Place)
    requires IsWorking(p.view, pass, c, Some(Generating(Monitoring))) && AllInPlace(p.store, pass.spec)
    requires c.maintenance == pass.maintenance
    ensures Follows(p, q) && NoneBegan(p.view.history, q.view.history)
    ensures IsWorking(q.view, pass.(maintenance := Maintained(pass, Meta)), c.(maintenance := Maintained(pass, Meta)),
                      Onward(pass.phase, Flownode))
    ensures q.view.armed == (p.view.armed && !HookRuns(pass.spec))
    ensures q.view.on == (OnAfterCheck(p.view, pass, Meta) && !(p.view.armed && HookRuns(pass.spec)))
  {
    var after, d := pass.(maintenance := Maintained(pass, Meta)), c;
    q, d := Succeeding(p, pass, c, Monitoring);
    q, d := Succeeding(q, pass, d, Meta);
    q, d := Succeeding(q, after, d, Datanode);
    q, d := Succeeding(q, after, d, Frontend);
    q, d := Succeeding(q, after, d, Flownode);
  }

  lemma ClosingStep(v: View, pass: Pass, c: Cluster, store: Store)
    requires IsWorking(v, pass, c, Some(Closing))
    ensures PassStep(v, store, QUIET).1 == store
    ensures Same(v.(pass := Some(pass.(maintenance := false, pc := MarkingRunning)), on := v.on && !pass.maintenance),
                 PassStep(v, store, QUIET).0)
  {
  }

  lemma RunningStep(v: View, pass: Pass, c: Cluster, store: Store)
    requires IsWorking(v, pass, c, Some(MarkingRunning))
    ensures PassStep(v, store, QUIET).1 == store
    ensures Same(v.(pass := None, cluster := Some(c.(phase := Running, maintenance := pass.maintenance))),
                 PassStep(v, store, QUIET).0)
  {
  }

  lemma Closed(p: Place, pass: Pass, c: Cluster) returns (q: Place)
    requires IsWorking(p.view, pass, c, Some(Closing))
    ensures Follows(p, q)
    ensures Same(p.view.(pass := None, cluster := Some(c.(phase := Running, maintenance := false)),
                         on := p.view.on && !pass.maintenance), q.view)
  {
    ClosingStep(p.view, pass, c, p.store);
    q := Advanced(p);
    RunningStep(q.view, pass.(maintenance := false), c, q.store);
    q := Advanced(q);
  }

  // ----- The prologue -----

  function PassOf(c: Cluster, pc: Pc): Pass
  {
    Pass(c.spec, c.phase, c.maintenance, c.finalizer, pc)
  }

  /** A pass that has just read a cluster that is not being deleted. */
  predicate HasRead(v: View, c: Cluster)
  {
    v.cluster == Some(c) && !c.deleting && v.pass == Some(PassOf(c, AddingFinalizer))
  }

  /** What the steps before the deployers make of a resource: finalizer, defaults, first phase. */
  function WithFinalizer(c: Cluster): Cluster { c.(finalizer := c.finalizer || c.spec.hasMeta) }

  function WithDefaults(c: Cluster): Cluster { c.(spec := Defaulted(c.spec)) }

  function WithPhase(c: Cluster): Cluster { if c.phase == Unset then c.(phase := Starting) else c }

  function Made(c: Cluster): Cluster
  {
    WithPhase(WithDefaults(WithFinalizer(c)))
  }

  lemma FinalizerStepOf(v: View, c: Cluster, store: Store)
    requires HasRead(v, c)
    ensures var d := WithFinalizer(c);
            PassStep(v, store, QUIET) == (v.(cluster := Some(d), pass := Some(PassOf(d, Validating))), store)
  {
  }

  lemma ValidateStepOf(v: View, c: Cluster, store: Store)
    requires v.cluster == Some(c) && v.pass == Some(PassOf(c, Validating))
    ensures PassStep(v, store, QUIET) == (v.(pass := Some(PassOf(c, SavingSpec))), store)
  {
  }

  lemma DefaultsStepOf(v: View, c: Cluster, store: Store)
    requires v.cluster == Some(c) && v.pass == Some(PassOf(c, SavingSpec))
    ensures PassStep(v, store, QUIET).1 == store
    ensures var d := WithDefaults(c);
            Same(v.(cluster := Some(d), pass := Some(PassOf(d, MarkingStarting))), PassStep(v, store, QUIET).0)
  {
  }

  lemma StartingStepOf(v: View, c: Cluster, store: Store)
    requires v.cluster == Some(c) && v.pass == Some(PassOf(c, MarkingStarting))
    ensures PassStep(v, store, QUIET).1 == store
    ensures var d := WithPhase(c);
            Same(v.(cluster := Some(d), pass := Some(PassOf(d, Preparing))), PassStep(v, store, QUIET).0)
  {
  }

  lemma PrepareStepOf(v: View, c: Cluster, store: Store)
    requires v.cluster == Some(c) && v.pass == Some(PassOf(c, Preparing))
    ensures PassStep(v, store, QUIET) == (v.(pass := Some(PassOf(c, Generating(Monitoring)))), store)
  {
  }

  /** A pass gets as far as its deployers, whatever the resource still lacks. */
  lemma Prepared(p: Place, c: Cluster) returns (q: Place)
    requires HasRead(p.view, c)
    ensures Follows(p, q)
    ensures Same(p.view.(cluster := Some(Made(c)), pass := Some(PassOf(Made(c), Generating(Monitoring)))), q.view)
  {
    var d := WithFinalizer(c);
    FinalizerStepOf(p.view, c, p.store);
    q := Advanced(p);
    ValidateStepOf(q.view, d, q.store);
    q := Advanced(q);
    DefaultsStepOf(q.view, d, q.store);
    q := Advanced(q);
    StartingStepOf(q.view, WithDefaults(d), q.store);
    q := Advanced(q);
    PrepareStepOf(q.view, Made(c), q.store);
    q := Advanced(q);
  }

  // ----- What a healthy pass achieves -----

  /** Creation-time maintenance is ended by a pass that reads one of these. */
  predicate Closes(c: Cluster)
  {
    c.phase == Unset || c.phase == Starting || c.phase == Updating
  }

  /** The resource after a healthy pass. */
  function Healthy(c: Cluster): Cluster
  {
    var d := Made(c);
    if c.phase == Error then d
    else d.(phase := Running, maintenance := c.maintenance && !Closes(c))
  }

  /** The metasrv's bit after a healthy pass. */
  predicate OnAfterPass(v: View, c: Cluster)
  {
    && v.on && !(v.armed && HookRuns(c.spec))
    && c.phase != Unset && c.phase != Starting && !(c.phase == Updating && c.maintenance)
  }

  lemma DeployersOf(p: Place, c: Cluster) returns (q: Place)
    requires HasRead(p.view, c) && c.phase != Terminating && AllInPlace(p.store, c.spec)
    ensures Follows(p, q)
    ensures var pass := PassOf(Made(c), Generating(Monitoring));
      && IsWorking(q.view, pass.(maintenance := Maintained(pass, Meta)),
                   Made(c).(maintenance := Maintained(pass, Meta)),
                   Onward(pass.phase, Flownode))
      && NoneBegan(p.view.history, q.view.history)
      && q.view.armed == (p.view.armed && !HookRuns(c.spec))
      && q.view.on == (OnAfterCheck(p.view, pass, Meta) && !(p.view.armed && HookRuns(c.spec)))
  {
    q := Prepared(p, c);
    var pass := PassOf(Made(c), Generating(Monitoring));
    MadeKeepsObjects(c, q.store);
    q := AllSucceeding(q, pass, Made(c));
  }

  /** Defaulting does not change what the deployers generate. */
  lemma DefaultsKeepObjects(c: Cluster, store: Store)
    ensures WithDefaults(c).spec.objects == c.spec.objects && WithDefaults(c).spec.failover == c.spec.failover
    ensures AllInPlace(store, c.spec) ==> AllInPlace(store, WithDefaults(c).spec)
    ensures HookRuns(WithDefaults(c).spec) == HookRuns(c.spec)
  {
    var spec := WithDefaults(c).spec;
    forall role
      ensures spec.Objects(role) == c.spec.Objects(role)
      ensures InPlace(store, c.spec, role) ==> InPlace(store, spec, role)
    {
      assert Watched(spec) == Watched(c.spec);
    }
  }

  lemma MadeKeepsObjects(c: Cluster, store: Store)
    ensures Made(c).spec.objects == c.spec.objects && Made(c).spec.failover == c.spec.failover
    ensures AllInPlace(store, c.spec) ==> AllInPlace(store, Made(c).spec)
    ensures HookRuns(Made(c).spec) == HookRuns(c.spec)
  {
    DefaultsKeepObjects(WithFinalizer(c), store);
  }

  /**
   Progress, for every cluster that is not being deleted and whatever it still lacks: once its objects are in
   place, a pass without failures makes it Running, except in phase Error, where phase and creation-time flag
   stay. The metasrv leaves maintenance if the cluster was being created, and if the hook clears an armed flag.
   */
  lemma HealthyPass(p: Place, c: Cluster) returns (q: Place)
    requires HasRead(p.view, c) && AllInPlace(p.store, c.spec)
    ensures Follows(p, q) && q.view.pass == None && NoneBegan(p.view.history, q.view.history)
    ensures q.view.cluster == Some(Healthy(c))
    ensures q.view.armed == (p.view.armed && !HookRuns(c.spec))
    ensures q.view.on == OnAfterPass(p.view, c)
  {
    NotTerminating(p, c);
    q := DeployersOf(p, c);
    if Onward(Made(c).phase, Flownode).Some? {
      var pass := PassOf(Made(c), Generating(Monitoring));
      var after := pass.(maintenance := Maintained(pass, Meta));
      q := Closed(q, after, Made(c).(maintenance := after.maintenance));
    }
  }

  /** Reachable clusters in phase Terminating are being deleted. */
  lemma NotTerminating(p: Place, c: Cluster)
    requires p.view.cluster == Some(c) && !c.deleting
    ensures c.phase != Terminating
  {
    assert Shown(true);
    Theorems.Always(p.run, p.k);
  }

  /** A healthy pass ends with phase Running exactly if the phase that it read was not Error. */
  lemma RunningExactlyUnlessError(p: Place, c: Cluster) returns (q: Place)
    requires HasRead(p.view, c) && AllInPlace(p.store, c.spec)
    ensures Follows(p, q) && q.view.pass == None && q.view.cluster.Some?
    ensures q.view.cluster.value.phase == Running <==> c.phase != Error
    ensures c.phase == Error ==>
        q.view.cluster.value.phase == Error && q.view.cluster.value.maintenance == c.maintenance
  {
    q := HealthyPass(p, c);
  }

  // ----- Phase Error -----

  /** The steps of a pass over objects that are in place, in a phase that asks for nothing at the end. */
  predicate IsSmooth(spec: Spec, pc: Pc)
  {
    match pc
    case AddingFinalizer => true
    case Validating => true
    case SavingSpec => true
    case MarkingStarting => true
    case Preparing => true
    case Generating(_) => true
    case Hooking(_) => true
    case Applying(role, i, updated) => !updated && i <= |spec.Objects(role)|
    case Checking(role, i, allReady) => allReady && (if role == Datanode then i <= |Watched(spec)| else i == 0)
    case SavingStatus(_, ready) => ready
    case Disarming => true
    case _ => false
  }

  /** A cluster in phase Error and in maintenance, everything in place, between two passes or within a smooth one. */
  ghost predicate IsStuck(v: View, store: Store, c: Cluster)
  {
    && v.cluster == Some(c) && c.phase == Error && !c.deleting && v.on && !v.armed && AllInPlace(store, c.spec)
    && (v.pass.Some? ==> v.pass == Some(PassOf(c, v.pass.value.pc)) && IsSmooth(c.spec, v.pass.value.pc))
  }

  lemma StuckEarly(v: View, store: Store, c: Cluster) returns (d: Cluster)
    requires IsStuck(v, store, c) && v.pass.Some? && IsPrologue(v.pass.value.pc)
    ensures IsStuck(PassStep(v, store, QUIET).0, store, d) && d.maintenance == c.maintenance
    ensures PassStep(v, store, QUIET).1 == store && NoneBegan(v.history, PassStep(v, store, QUIET).0.history)
  {
    d := c;
    match v.pass.value.pc
    case AddingFinalizer => {
      FinalizerStepOf(v, c, store);
      d := WithFinalizer(c);
    }
    case Validating => ValidateStepOf(v, c, store);
    case SavingSpec => {
      DefaultsStepOf(v, c, store);
      DefaultsKeepObjects(c, store);
      d := WithDefaults(c);
    }
    case MarkingStarting => StartingStepOf(v, c, store);
    case Preparing => PrepareStepOf(v, c, store);
  }

  lemma StuckApplying(v: View, store: Store, c: Cluster)
    requires IsStuck(v, store, c) && v.pass.Some?
    requires v.pass.value.pc.Generating? || v.pass.value.pc.Hooking? || v.pass.value.pc.Applying?
    ensures IsStuck(PassStep(v, store, QUIET).0, store, c)
    ensures PassStep(v, store, QUIET).1 == store && NoneBegan(v.history, PassStep(v, store, QUIET).0.history)
  {
    var p := v.pass.value;
    assert InPlace(store, c.spec, p.pc.role);
    match p.pc
    case Generating(role) => GeneratingStep(v, p, c, store, role);
    case Hooking(role) => HookingStep(v, p, c, store, role);
    case Applying(role, i, _) => ApplyingStep(v, p, store, role, i);
  }

  lemma StuckChecking(v: View, store: Store, c: Cluster)
    requires IsStuck(v, store, c) && v.pass.Some?
    requires v.pass.value.pc.Checking? || v.pass.value.pc.SavingStatus? || v.pass.value.pc.Disarming?
    ensures IsStuck(PassStep(v, store, QUIET).0, store, c)
    ensures PassStep(v, store, QUIET).1 == store && NoneBegan(v.history, PassStep(v, store, QUIET).0.history)
  {
    var p := v.pass.value;
    assert InPlace(store, c.spec, Datanode);
    match p.pc
    case Checking(role, i, _) =>
      if role == Datanode {
        ObservingStep(v, p, store, i);
      } else {
        CheckingStep(v, p, store, role);
      }
    case SavingStatus(role, _) => SavingStep(v, p, c, store, role);
    case Disarming => DisarmingStep(v, p, c, store);
  }

  lemma StuckStep(v: View, store: Store, c: Cluster) returns (d: Cluster)
    requires IsStuck(v, store, c) && v.pass.Some?
    ensures IsStuck(PassStep(v, store, QUIET).0, store, d) && d.maintenance == c.maintenance
    ensures PassStep(v, store, QUIET).1 == store && NoneBegan(v.history, PassStep(v, store, QUIET).0.history)
  {
    var pc := v.pass.value.pc;
    d := c;
    if IsPrologue(pc) {
      d := StuckEarly(v, store, c);
    } else if pc.Generating? || pc.Hooking? || pc.Applying? {
      StuckApplying(v, store, c);
    } else {
      StuckChecking(v, store, c);
    }
  }

  /** What happens while nothing fails: passes begin, and their steps succeed. */
  predicate IsHealthy(a: Action, k: Names.Key)
  {
    a == Begin(k) || a == Step(k, QUIET)
  }

  lemma StuckOneMore(p: Place, c: Cluster, a: Action) returns (q: Place, d: Cluster)
    requires IsStuck(p.view, p.store, c) && IsHealthy(a, p.k)
    ensures q.run == p.run + [a] && q.k == p.k && q.store == p.store
    ensures IsStuck(q.view, q.store, d) && d.maintenance == c.maintenance
  {
    d := c;
    if a.Step? && p.view.pass.Some? {
      d := StuckStep(p.view, p.store, c);
    }
    q := Extended(p, a);
  }

  /**
   In phase Error, with everything in place and the flag clear, maintenance that creation began is never ended
   while nothing fails: after every sequence of passes, whole or cut short, the cluster is where it was.
   */
  lemma {:induction false} ErrorIsForGood(p: Place, c: Cluster, actions: seq<Action>) returns (q: Place, d: Cluster)
    requires IsStuck(p.view, p.store, c) && forall a :: a in actions ==> IsHealthy(a, p.k)
    ensures q.run == p.run + actions && q.k == p.k && q.store == p.store
    ensures IsStuck(q.view, q.store, d) && d.maintenance == c.maintenance
    decreases |actions|
  {
    if actions == [] {
      return p, c;
    }
    var front, a := actions[..|actions| - 1], actions[|actions| - 1];
    assert actions == front + [a];
    q, d := ErrorIsForGood(p, c, front);
    q, d := StuckOneMore(q, d, a);
  }

  /** How many passes a history has seen begin. */
  function Passes(h: seq<Event>): nat
  {
    if h == [] then 0 else Passes(h[..|h| - 1]) + (if h[|h| - 1].Began? then 1 else 0)
  }

  lemma {:induction false} NoneBeganCounts(g: seq<Event>, h: seq<Event>)
    requires NoneBegan(g, h)
    ensures Passes(h) == Passes(g)
    decreases |h|
  {
    if h != g {
      NoneBeganCounts(g, h[..|h| - 1]);
    }
  }

  lemma BeginCounts(p: Place, c: Cluster) returns (q: Place)
    requires p.view.pass == None && p.view.cluster == Some(c) && !c.deleting
    ensures q.run == p.run + [Begin(p.k)] && q.k == p.k && q.store == p.store
    ensures HasRead(q.view, c) && Passes(q.view.history) == Passes(p.view.history) + 1
    ensures q.view.armed == p.view.armed && q.view.on == p.view.on
  {
    q := Extended(p, Begin(p.k));
    var e := Began(c.phase, c.deleting);
    assert (p.view.history + [e])[..|p.view.history|] == p.view.history;
  }

  /** Such passes exist: any number of them can follow one another, each from its beginning to its end. */
  lemma {:induction false} ManyHealthyPasses(p: Place, c: Cluster, passes: nat) returns (q: Place, more: seq<Action>)
    requires IsStuck(p.view, p.store, c) && p.view.pass == None
    ensures q.run == p.run + more && q.k == p.k && (forall a :: a in more ==> IsHealthy(a, p.k))
    ensures q.view.pass == None && q.view.cluster.Some? && IsStuck(q.view, q.store, q.view.cluster.value)
    ensures q.view.cluster.value.maintenance == c.maintenance
    ensures Passes(q.view.history) == Passes(p.view.history) + passes
    decreases passes
  {
    if passes == 0 {
      return p, [];
    }
    var r := BeginCounts(p, c);
    q := HealthyPass(r, c);
    NoneBeganCounts(r.view.history, q.view.history);
    MadeKeepsObjects(c, q.store);
    var first := q.run[|p.run|..];
    assert forall a :: a in first ==> IsHealthy(a, p.k);
    q, more := ManyHealthyPasses(q, Healthy(c), passes - 1);
    more := first + more;
  }

  // ----- Two runs -----

  const KEY: Names.Key := Names.RawKey("default", "basic")
  const SETTLED := Live(SOME_TEMPLATE, 1, 1, 1, 1, 1)
  const DATANODES := Desired(ObjectKey("StatefulSet", "default", "basic-datanode"), JNull, map[], SOME_TEMPLATE)
  const OLD_TEMPLATE := SOME_TEMPLATE.(firstInitImage := "old")
  const WITH_FAILOVER: Spec := RawSpec(true, true, true, map[Meta := [SOME_DESIRED], Datanode := [DATANODES]])
  const WITHOUT_FAILOVER: Spec := WITH_FAILOVER.(failover := false)
  const CREATED := Cluster(WITH_FAILOVER, Unset, false, false, false)
  const CREATING := Cluster(WITH_FAILOVER, Starting, true, false, true)

  /** The metasrv is as desired; the datanodes run another image. */
  const BEFORE: Store := map[
    SOME_DESIRED.key := Object(Parsed(JNull), map[], SETTLED),
    DATANODES.key := Object(Parsed(JBool(true)), map[], SETTLED.(template := OLD_TEMPLATE))]

  const AFTER: Store := map[
    SOME_DESIRED.key := Object(Parsed(JNull), map[], SETTLED),
    DATANODES.key := Object(Parsed(JNull), map[], SETTLED)]

  lemma KeysDiffer()
    ensures SOME_DESIRED.key != DATANODES.key
  {
    assert |SOME_DESIRED.key.kind| != |DATANODES.key.kind|;
  }

  lemma WatchesDatanodes(spec: Spec)
    requires spec.Objects(Datanode) == [DATANODES]
    ensures Watched(spec) == [DATANODES.key]
  {
    assert [DATANODES][1..] == [] && StatefulSetKeys([DATANODES][1..]) == [];
  }

  lemma AfterIsInPlace(spec: Spec)
    requires spec == WITH_FAILOVER || spec == WITHOUT_FAILOVER
    ensures AllInPlace(AFTER, spec)
  {
    KeysDiffer();
    WatchesDatanodes(spec);
    forall role: Role
      ensures InPlace(AFTER, spec, role)
    {
    }
  }

  lemma BeforeIsInPlace()
    ensures InPlace(BEFORE, WITH_FAILOVER, Meta)
  {
    KeysDiffer();
  }

  /** The datanodes differ in a way that restarts pods: the flag is armed. */
  lemma ArmsFlag(p: Place, pass: Pass, c: Cluster) returns (q: Place)
    requires IsWorking(p.view, pass, c, Some(Applying(Datanode, 0, false)))
    requires pass.spec == WITH_FAILOVER && p.store == BEFORE && !p.view.armed
    ensures Follows(p, q)
    ensures Same(p.view.(pass := Some(pass.(pc := Patching(Datanode, 0, false, COMPARED))), armed := true,
                         on := true), q.view)
  {
    ArmingSteps(p.view, pass);
    q := Advanced(p);
    q := Advanced(q);
  }

  const COMPARED := Some(Comparison(SOME_TEMPLATE, OLD_TEMPLATE))

  lemma Patched(p: Place, pass: Pass) returns (q: Place)
    requires p.view.pass == Some(pass.(pc := Patching(Datanode, 0, false, COMPARED))) && pass.phase == Starting
    requires pass.spec == WITH_FAILOVER && p.store == BEFORE
    ensures q.k == p.k && Same(p.view.(pass := None), q.view)
  {
    PatchingSteps(p.view, pass);
    q := Extended(p, Step(p.k, QUIET));
    q := Extended(q, Step(q.k, QUIET));
    q := Extended(q, Step(q.k, QUIET));
  }

  lemma ArmingSteps(v: View, pass: Pass)
    requires v.pass == Some(pass.(pc := Applying(Datanode, 0, false))) && pass.spec == WITH_FAILOVER && !v.armed
    ensures var w := v.(pass := Some(pass.(pc := Arming(0, false))));
      && PassStep(v, BEFORE, QUIET) == (w, BEFORE)
      && PassStep(w, BEFORE, QUIET).1 == BEFORE
      && Same(v.(pass := Some(pass.(pc := Patching(Datanode, 0, false, COMPARED))), armed := true, on := true),
              PassStep(w, BEFORE, QUIET).0)
  {
    KeysDiffer();
    assert Compare(BEFORE, DATANODES) == Differs;
    assert |"old"| != |""|;
    assert IsOldPodRestart(DATANODES.template, BEFORE[DATANODES.key].live.template);
  }

  lemma PatchingSteps(v: View, pass: Pass)
    requires v.pass == Some(pass.(pc := Patching(Datanode, 0, false, COMPARED)))
    requires pass.spec == WITH_FAILOVER && pass.phase == Starting
    ensures var (w, s) := PassStep(v, BEFORE, QUIET);
      && Same(v.(pass := Some(pass.(pc := Applying(Datanode, 1, true)))), w)
      && PassStep(w, s, QUIET) == (w.(pass := Some(pass.(pc := Waiting))), s)
      && PassStep(w.(pass := Some(pass.(pc := Waiting))), s, QUIET) == (w.(pass := None), s)
  {
    KeysDiffer();
  }

  lemma CreatedFirst() returns (q: Place)
    ensures q.k == KEY && q.store == BEFORE && !q.view.armed && HasRead(q.view, CREATED)
  {
    var p := Place([], KEY, FRESH, map[]);
    q := Extended(p, Create(KEY, WITH_FAILOVER));
    q := Extended(q, Mutate(BEFORE));
    q := Extended(q, Begin(KEY));
  }

  /** The metasrv deployer has put the new cluster into maintenance. */
  lemma MaintainedFirst() returns (q: Place, pass: Pass)
    ensures q.k == KEY && q.store == BEFORE && !q.view.armed && q.view.on
    ensures pass == PassOf(CREATING, Generating(Datanode))
        && IsWorking(q.view, pass, CREATING, Some(Generating(Datanode)))
  {
    q := CreatedFirst();
    q := Prepared(q, CREATED);
    var c := Made(CREATED);
    pass := PassOf(c, Generating(Monitoring));
    BeforeIsInPlace();
    q := Skipping(q, pass, c, Monitoring);
    q := Unchanging(q, pass, c, Meta);
    q, c := Concluding(q, pass, c, Meta);
    pass := PassOf(CREATING, Generating(Datanode));
  }

  /** A new cluster, after a pass that armed the flag while it was still being created. */
  lemma ArmedWhileStarting() returns (q: Place)
    ensures q.k == KEY && q.view.cluster == Some(CREATING) && q.view.pass == None && q.view.armed && q.view.on
  {
    var pass;
    q, pass := MaintainedFirst();
    GeneratingStep(q.view, pass, CREATING, q.store, Datanode);
    q := Advanced(q);
    HookingStep(q.view, pass, CREATING, q.store, Datanode);
    q := Advanced(q);
    q := ArmsFlag(q, pass, CREATING);
    q := Patched(q, pass);
  }

  /**
   The condition of the agreement is needed: a run in which the user switches region failover off while the
   flag is armed ends with a cluster that is Running, with the flag armed, and not in maintenance.
   */
  lemma AgreementFailsWithoutTheHook() returns (run: seq<Action>)
    ensures var v := ViewOf(Run(run), KEY);
            v.pass == None && v.cluster.Some? && v.cluster.value.phase == Running && v.armed && !v.on
    ensures Edit(KEY, WITHOUT_FAILOVER) in run && !Theorems.HookKeptThroughout(run, KEY)
  {
    var q := ArmedWhileStarting();
    q := Extended(q, Edit(KEY, WITHOUT_FAILOVER));
    q := Extended(q, Mutate(AFTER));
    q := Extended(q, Begin(KEY));
    var edited := |q.run| - 3;
    assert q.run[edited] == Edit(KEY, WITHOUT_FAILOVER);
    AfterIsInPlace(WITHOUT_FAILOVER);
    q := HealthyPass(q, CREATING.(spec := WITHOUT_FAILOVER));
    run := q.run;
    assert run[edited] == Edit(KEY, WITHOUT_FAILOVER);
    assert Shown(true);
    HookWasLost(run);
  }

  lemma HookWasLost(run: seq<Action>)
    requires var v := ViewOf(Run(run), KEY); v.cluster.Some? && v.cluster.value.phase == Running && v.armed && !v.on
    ensures !Theorems.HookKeptThroughout(run, KEY)
  {
    if Theorems.HookKeptThroughout(run, KEY) {
      Theorems.MaintenanceAgreement(run, KEY);
    }
  }

  const REFUSED := QUIET.(ok := false)

  lemma RefusalSteps(v: View, c: Cluster, store: Store)
    requires v.cluster == Some(c) && c.phase == Starting && v.pass == Some(PassOf(c, Validating))
    ensures var w := v.(pass := Some(PassOf(c, MarkingError)));
      && PassStep(v, store, REFUSED) == (w, store)
      && PassStep(w, store, QUIET).1 == store
      && Same(v.(pass := None, cluster := Some(c.(phase := Error))), PassStep(w, store, QUIET).0)
  {
  }

  lemma FailedDeployerStops(v: View, pass: Pass, store: Store)
    requires v.pass == Some(pass.(pc := Generating(Datanode)))
    ensures PassStep(v, store, REFUSED) == (v.(pass := None), store)
  {
  }

  /** A new cluster in phase Error, in the maintenance that creation began. A deployer failed first, without effect. */
  lemma ErrorWhileStarting() returns (q: Place)
    ensures q.k == KEY && q.store == AFTER && q.view.cluster == Some(CREATING.(phase := Error))
    ensures q.view.pass == None && !q.view.armed && q.view.on
  {
    var pass;
    q, pass := MaintainedFirst();
    FailedDeployerStops(q.view, pass, q.store);
    q := Extended(q, Step(KEY, REFUSED));
    assert q.view.cluster == Some(CREATING);
    q := Extended(q, Mutate(AFTER));
    q := Extended(q, Begin(KEY));
    FinalizerStepOf(q.view, CREATING, q.store);
    q := Advanced(q);
    RefusalSteps(q.view, CREATING, q.store);
    q := Extended(q, Step(KEY, REFUSED));
    q := Extended(q, Step(KEY, QUIET));
  }

  /**
   Phase Error during creation. In `run`, a deployer fails, which leaves the phase as it is, and then the validation
   fails, which writes Error. Then, with everything in place, `more` is any number of whole healthy passes; the
   cluster is still in Error, and its metasrv in the maintenance that creation began.
   */
  lemma ErrorKeepsMaintenance(passes: nat) returns (run: seq<Action>, more: seq<Action>)
    ensures forall a :: a in more ==> IsHealthy(a, KEY)
    ensures Passes(HistoryOf(run + more, KEY)) == Passes(HistoryOf(run, KEY)) + passes
    ensures var v, w := ViewOf(Run(run), KEY), ViewOf(Run(run + more), KEY);
            && IsStuck(v, Run(run).store, CREATING.(phase := Error)) && v.pass == None && w.pass == None
            && w.cluster.Some? && w.cluster.value.phase == Error && w.cluster.value.maintenance && w.on && !w.armed
  {
    var p := ErrorWhileStarting();
    AfterIsInPlace(WITH_FAILOVER);
    var q;
    q, more := ManyHealthyPasses(p, CREATING.(phase := Error), passes);
    run := p.run;
    assert Shown(true);
  }
}
