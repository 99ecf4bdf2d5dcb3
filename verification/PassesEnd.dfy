/**
 Passes in which nothing fails come to their end: every step brings it nearer. So schedules with any number of
 passes exist.
 */
module PassesEnd {
  import opened Text
  import Names
  import opened Resources
  import opened Machine
  import opened Reconciler
  import opened Progress
  import Improvement
  import opened HealthyPasses
  import opened Schedules
  import opened Convergence

  /** How many steps a deployer can take, at most, and how many the pass has left. */
  function StepsOf(spec: Spec, role: Role): nat
  {
    3 * |spec.Objects(role)| + |Watched(spec)| + 8
  }

  function StepsFrom(spec: Spec, role: Role): nat
    decreases 5 - Rank(role)
  {
    StepsOf(spec, role) + if role == Flownode then 3 else StepsFrom(spec, NextRole(role))
  }

  function StepsAfter(spec: Spec, role: Role): nat
  {
    if role == Flownode then 3 else StepsFrom(spec, NextRole(role))
  }

  function Rest(n: nat, i: nat): nat
  {
    if i <= n then n - i else 0
  }

  function LeftAt(spec: Spec, pc: Pc, armed: bool): nat
  {
    match pc
    case AddingFinalizer => StepsFrom(spec, Monitoring) + 5
    case Validating => StepsFrom(spec, Monitoring) + 4
    case SavingSpec => StepsFrom(spec, Monitoring) + 3
    case MarkingStarting => StepsFrom(spec, Monitoring) + 2
    case Preparing => StepsFrom(spec, Monitoring) + 1
    case Generating(r) => StepsFrom(spec, r)
    case Hooking(r) => StepsFrom(spec, r) - 1
    case Applying(r, i, _) => StepsAfter(spec, r) + |Watched(spec)| + 6 + 3 * Rest(|spec.Objects(r)|, i)
    case Arming(i, _) => StepsAfter(spec, Datanode) + |Watched(spec)| + 5 + 3 * Rest(|spec.Objects(Datanode)|, i)
    case Patching(r, i, _, _) => StepsAfter(spec, r) + |Watched(spec)| + 4 + 3 * Rest(|spec.Objects(r)|, i)
    case Checking(r, i, _) => StepsAfter(spec, r) + 4 + Rest(|Watched(spec)|, i)
    case SavingStatus(r, _) => StepsAfter(spec, r) + 3
    case Disarming => StepsAfter(spec, Datanode) + (if armed then 2 else 1)
    case Waiting => 1
    case Closing => 2
    case MarkingRunning => 1
    case _ => 0
  }

  function Left(v: View): nat
  {
    match v.pass case None => 0 case Some(p) => LeftAt(p.spec, p.pc, v.armed)
  }

  /** The step brings the end of the pass nearer. */
  ghost predicate Shrinks(v: View, store: Store, a: Answer)
    requires v.pass.Some? && InBounds(v.pass.value)
  {
    Left(PassStep(v, store, a).0) < Left(v)
  }

  lemma Nearer(v: View, w: View, p: Pass, q: Pass, pc: Pc, next: Pc)
    requires v.pass == Some(p.(pc := pc)) && w.pass == Some(q.(pc := next)) && p.spec == q.spec
    requires LeftAt(p.spec, next, w.armed) < LeftAt(p.spec, pc, v.armed)
    ensures Left(w) < Left(v)
  {
  }

  // ----- The steps before the deployers -----

  lemma SameSteps(spec: Spec, other: Spec, role: Role)
    requires spec.objects == other.objects
    ensures StepsFrom(spec, role) == StepsFrom(other, role)
    decreases 5 - Rank(role)
  {
    assert spec.Objects(role) == other.Objects(role) && Watched(spec) == Watched(other);
    if role != Flownode {
      SameSteps(spec, other, NextRole(role));
    }
  }

  lemma PrologueShrinks(v: View, c: Cluster, store: Store, a: Answer, pc: Pc, next: Pc)
    requires !c.deleting && IsGood(a) && v.cluster == Some(Before(c, pc)) && v.pass == Some(PassOf(Before(c, pc), pc))
    requires (pc, next) == (AddingFinalizer, Validating) || (pc, next) == (Validating, SavingSpec)
          || (pc, next) == (SavingSpec, MarkingStarting) || (pc, next) == (MarkingStarting, Preparing)
    ensures Shrinks(v, store, a)
  {
    PrologueLeads(v, c, store, a, pc, next);
    SameSteps(Before(c, pc).spec, Before(c, next).spec, Monitoring);
  }

  lemma PreparingShrinks(v: View, c: Cluster, store: Store, a: Answer)
    requires IsGood(a) && v.cluster == Some(c) && v.pass == Some(PassOf(c, Preparing))
    ensures Shrinks(v, store, a)
  {
    PreparingLeads(v, c, store, a);
  }

  // ----- The steps of a deployer -----

  /** What is left after a deployer has succeeded. */
  lemma OnwardLeft(w: View, p: Pass, role: Role)
    requires w.pass == PassAt(p, Onward(p.phase, role))
    ensures Left(w) <= StepsAfter(p.spec, role)
  {
  }

  lemma GeneratingShrinks(v: View, p: Pass, c: Cluster, store: Store, a: Answer, role: Role)
    requires IsGood(a) && IsWorking(v, p, c, Some(Generating(role)))
    ensures Shrinks(v, store, a)
  {
    GeneratingLeads(v, p, c, store, a, role);
    if p.spec.Objects(role) == [] {
      OnwardLeft(PassStep(v, store, a).0, p, role);
    } else {
      Nearer(v, PassStep(v, store, a).0, p, p, Generating(role), Hooking(role));
    }
  }

  lemma HookingShrinks(v: View, p: Pass, c: Cluster, store: Store, a: Answer, role: Role)
    requires IsGood(a) && IsWorking(v, p, c, Some(Hooking(role)))
    ensures Shrinks(v, store, a)
  {
    HookingLeads(v, p, c, store, a, role);
    Nearer(v, PassStep(v, store, a).0, p, p, Hooking(role), Applying(role, 0, false));
  }

  /** Where the loop may go after a look at an object, or at its end. */
  predicate IsLookedPast(spec: Spec, role: Role, i: nat, next: Pc)
  {
    if i >= |spec.Objects(role)| then next == Waiting || next == Checking(role, 0, true)
    else
      || (next.Applying? && next.role == role && next.i == i + 1)
      || (next.Arming? && next.i == i && role == Datanode)
      || (next.Patching? && next.role == role && next.i == i)
  }

  lemma LookedPastIsNearer(spec: Spec, role: Role, i: nat, updated: bool, next: Pc, armed: bool, nowArmed: bool)
    requires IsLookedPast(spec, role, i, next)
    ensures LeftAt(spec, next, nowArmed) < LeftAt(spec, Applying(role, i, updated), armed)
  {
  }

  lemma LookingShrinks(v: View, p: Pass, c: Cluster, store: Store, a: Answer, role: Role, i: nat, updated: bool)
    requires IsGood(a) && IsWorking(v, p, c, Some(Applying(role, i, updated)))
    requires i < |p.spec.Objects(role)| ==>
      Compare(store, p.spec.Objects(role)[i]) == Same || Compare(store, p.spec.Objects(role)[i]) == Differs
    ensures Shrinks(v, store, a)
  {
    LookingLeads(v, p, c, store, a, role, i, updated);
    var next :=
      if i >= |p.spec.Objects(role)| then (if updated then Waiting else Checking(role, 0, true))
      else if Compare(store, p.spec.Objects(role)[i]) == Same then Applying(role, i + 1, updated)
      else if role == Datanode && p.spec.Objects(role)[i].IsStatefulSet() && p.spec.failover then Arming(i, updated)
      else Patching(role, i, updated, None);
    LookedPastIsNearer(p.spec, role, i, updated, next, v.armed, PassStep(v, store, a).0.armed);
    Nearer(v, PassStep(v, store, a).0, p, p, Applying(role, i, updated), next);
  }

  lemma CreatingShrinks(v: View, p: Pass, c: Cluster, store: Store, a: Answer, role: Role, i: nat, updated: bool)
    requires IsGood(a) && IsWorking(v, p, c, Some(Applying(role, i, updated)))
    requires i < |p.spec.Objects(role)| && Compare(store, p.spec.Objects(role)[i]) == Absent
    ensures Shrinks(v, store, a)
  {
    CreatingLeads(v, p, c, store, a, role, i, updated);
    Nearer(v, PassStep(v, store, a).0, p, p, Applying(role, i, updated), Applying(role, i + 1, updated));
  }

  lemma ArmingShrinks(v: View, p: Pass, c: Cluster, store: Store, a: Answer, i: nat, updated: bool)
    requires IsGood(a) && IsWorking(v, p, c, Some(Arming(i, updated)))
    requires i < |p.spec.Objects(Datanode)| && p.spec.Objects(Datanode)[i].key in store
    ensures Shrinks(v, store, a)
  {
    ArmingLeads(v, p, c, store, a, i, updated);
    var old' := store[p.spec.Objects(Datanode)[i].key].live.template;
    var compared := Some(Comparison(p.spec.Objects(Datanode)[i].template, old'));
    Nearer(v, PassStep(v, store, a).0, p, p, Arming(i, updated), Patching(Datanode, i, updated, compared));
  }

  lemma PatchingShrinks(
      v: View, p: Pass, c: Cluster, store: Store, a: Answer, role: Role, i: nat, updated: bool,
      compared: Option<Comparison>)
    requires IsGood(a) && IsWorking(v, p, c, Some(Patching(role, i, updated, compared)))
    requires i < |p.spec.Objects(role)| && p.spec.Objects(role)[i].key in store
    ensures Shrinks(v, store, a)
  {
    PatchingLeads(v, p, c, store, a, role, i, updated, compared);
    Nearer(v, PassStep(v, store, a).0, p, p, Patching(role, i, updated, compared), Applying(role, i + 1, true));
  }

  lemma DatanodeCheckShrinks(v: View, p: Pass, c: Cluster, store: Store, a: Answer, i: nat, ok: bool)
    requires IsGood(a) && IsWorking(v, p, c, Some(Checking(Datanode, i, ok))) && i <= |Watched(p.spec)|
    ensures Shrinks(v, store, a)
  {
    DatanodeCheckLeads(v, p, c, store, a, i, ok);
    var next := if i < |Watched(p.spec)| then Checking(Datanode, i + 1, ok && !IsUnready(v, store, a))
                else SavingStatus(Datanode, ok);
    Nearer(v, PassStep(v, store, a).0, p, p, Checking(Datanode, i, ok), next);
  }

  lemma OtherCheckShrinks(v: View, p: Pass, c: Cluster, store: Store, a: Answer, role: Role, i: nat, ok: bool)
    requires IsGood(a) && IsWorking(v, p, c, Some(Checking(role, i, ok))) && role != Datanode
    ensures Shrinks(v, store, a)
  {
    OtherCheckLeads(v, p, c, store, a, role, i, ok);
    var w, next := PassStep(v, store, a).0, SavingStatus(role, a.ready);
    var maintenance: bool :| Leads(v, w, PassAt(p.(maintenance := maintenance), Some(next)), c);
    Nearer(v, w, p, p.(maintenance := maintenance), Checking(role, i, ok), next);
  }

  lemma SavingShrinks(v: View, p: Pass, c: Cluster, store: Store, a: Answer, role: Role, ok: bool)
    requires IsGood(a) && IsWorking(v, p, c, Some(SavingStatus(role, ok)))
    ensures Shrinks(v, store, a)
  {
    SavingLeads(v, p, c, store, a, role, ok);
    if !ok || role == Datanode {
      Nearer(v, PassStep(v, store, a).0, p, p, SavingStatus(role, ok), if ok then Disarming else Waiting);
    } else {
      OnwardLeft(PassStep(v, store, a).0, p, role);
    }
  }

  lemma DisarmingShrinks(v: View, p: Pass, c: Cluster, store: Store, a: Answer)
    requires IsGood(a) && IsWorking(v, p, c, Some(Disarming))
    ensures Shrinks(v, store, a)
  {
    DisarmingLeads(v, p, c, store, a);
    if v.armed && p.spec.failover {
      Nearer(v, PassStep(v, store, a).0, p, p, Disarming, Disarming);
    } else {
      OnwardLeft(PassStep(v, store, a).0, p, Datanode);
    }
  }

  // ----- Every step -----

  lemma EarlyShrinks(s: Start, v: View, store: Store, unready: bool, a: Answer)
    requires IsReadyToStep(s, v, store, unready, a) && IsPrologue(v.pass.value.pc)
    ensures Shrinks(v, store, a)
  {
    var pc := v.pass.value.pc;
    if pc.Preparing? {
      PreparingShrinks(v, Made(s.cluster), store, a);
    } else {
      var next := if pc.AddingFinalizer? then Validating else if pc.Validating? then SavingSpec
                  else if pc.SavingSpec? then MarkingStarting else Preparing;
      PrologueShrinks(v, s.cluster, store, a, pc, next);
    }
  }

  lemma ApplyingShrinks(s: Start, v: View, store: Store, unready: bool, a: Answer)
    requires IsReadyToStep(s, v, store, unready, a) && v.pass.value.pc.Applying?
    ensures Shrinks(v, store, a)
  {
    var p, c := v.pass.value, v.cluster.value;
    var Applying(role, i, updated) := p.pc;
    var ds := s.Spec().Objects(role);
    if i < |ds| {
      assert Improvement.Wanted(s.Spec(), ds[i]);
      Improvement.ImprovedIsReadable(s.store, store, s.Spec());
    }
    if i < |ds| && Compare(store, ds[i]) == Absent {
      CreatingShrinks(v, p, c, store, a, role, i, updated);
    } else {
      LookingShrinks(v, p, c, store, a, role, i, updated);
    }
  }

  lemma CheckingShrinks(s: Start, v: View, store: Store, unready: bool, a: Answer)
    requires IsReadyToStep(s, v, store, unready, a) && v.pass.value.pc.Checking?
    ensures Shrinks(v, store, a)
  {
    var p, c := v.pass.value, v.cluster.value;
    if p.pc.role == Datanode {
      DatanodeCheckShrinks(v, p, c, store, a, p.pc.i, p.pc.allReady);
    } else {
      OtherCheckShrinks(v, p, c, store, a, p.pc.role, p.pc.i, p.pc.allReady);
    }
  }

  lemma EpilogueShrinks(v: View, p: Pass, c: Cluster, store: Store, a: Answer)
    requires IsGood(a) && IsWorking(v, p, c, Some(p.pc))
    requires p.pc.Waiting? || p.pc.Closing? || p.pc.MarkingRunning?
    ensures Shrinks(v, store, a)
  {
    if p.pc.Waiting? {
      WaitingLeads(v, p, c, store, a);
    } else if p.pc.Closing? {
      ClosingLeads(v, p, c, store, a);
    } else {
      RunningLeads(v, p, c, store, a);
    }
  }

  /** The steps between the first one of a deployer and its last one that do not depend on what is stored. */
  lemma WorkingShrinks(s: Start, v: View, store: Store, unready: bool, a: Answer)
    requires IsReadyToStep(s, v, store, unready, a) && !IsPrologue(v.pass.value.pc)
    requires !v.pass.value.pc.Applying? && !v.pass.value.pc.Checking?
    ensures Shrinks(v, store, a)
  {
    var p, c := v.pass.value, v.cluster.value;
    var pc := p.pc;
    if pc.Generating? {
      GeneratingShrinks(v, p, c, store, a, pc.role);
    } else if pc.Hooking? {
      HookingShrinks(v, p, c, store, a, pc.role);
    } else if pc.Arming? {
      ArmingShrinks(v, p, c, store, a, pc.i, pc.updated);
    } else if pc.Patching? {
      PatchingShrinks(v, p, c, store, a, pc.role, pc.i, pc.updated, pc.compared);
    } else if pc.SavingStatus? {
      SavingShrinks(v, p, c, store, a, pc.role, pc.ready);
    } else if pc.Disarming? {
      DisarmingShrinks(v, p, c, store, a);
    } else {
      EpilogueShrinks(v, p, c, store, a);
    }
  }

  /** Every step brings the end of the pass nearer, so that a pass ends after at most `Left` of them. */
  lemma StepShrinks(s: Start, v: View, store: Store, unready: bool, a: Answer)
    requires IsReadyToStep(s, v, store, unready, a)
    ensures Shrinks(v, store, a)
  {
    var pc := v.pass.value.pc;
    if IsPrologue(pc) {
      EarlyShrinks(s, v, store, unready, a);
    } else if pc.Applying? {
      ApplyingShrinks(s, v, store, unready, a);
    } else if pc.Checking? {
      CheckingShrinks(s, v, store, unready, a);
    } else {
      WorkingShrinks(s, v, store, unready, a);
    }
  }

  // ----- Whole passes -----

  /** How many steps cluster `k` has made in its own passes. */
  function OwnSteps(actions: seq<Action>, k: Names.Key): nat
  {
    if actions == [] then 0
    else
      var a := actions[|actions| - 1];
      OwnSteps(actions[..|actions| - 1], k) + if a.Step? && a.k == k then 1 else 0
  }

  lemma TrackShrinks(p: Place, c: Cluster, m: Place, a: Answer)
    requires OnTrack(p, c, m) && m.view.pass.Some? && IsBenignStep(m.view, a)
    ensures InBounds(m.view.pass.value) && Shrinks(m.view, m.store, a)
  {
    var n, first := PassesBetween(p, m), FirstSawUnready(p, m);
    var s, unready :| HasBegun(p, c, s, n, first, unready) && Stands(s, m.view, m.store, unready);
    StandsInBounds(s, m.view, m.store, unready);
    StepShrinks(s, m.view, m.store, unready, a);
  }

  lemma BenignTwice(p: Place, m: Place, q: Place)
    requires Benign(p, m) && Benign(m, q)
    ensures Benign(p, q)
    decreases |q.run|
  {
    if |q.run| == |m.run| {
      SamePlace(m, q);
    } else {
      var e := Earlier(q);
      var a := q.run[|q.run| - 1];
      assert q.run == e.run + [a];
      BenignNext(m, e, q, a);
      BenignTwice(p, m, e);
      BenignNext(p, e, q, a);
    }
  }

  lemma {:induction false} PassesGrow(g: seq<Event>, h: seq<Event>)
    requires g <= h
    ensures Passes(g) <= Passes(h)
    decreases |h|
  {
    if |g| < |h| {
      PassesGrow(g, h[..|h| - 1]);
    } else {
      assert g == h;
    }
  }

  /** One action of such a schedule, as far as it matters to the pass in progress. */
  lemma ActionShrinks(p: Place, c: Cluster, e: Place, q: Place, a: Action)
    requires IsReady(p, c) && Benign(p, e) && IsNext(e, q, a) && IsBenign(e.view, e.store, q.store, a, p.k)
    ensures Passes(q.view.history) >= Passes(e.view.history)
    ensures q.view.pass.Some? && Passes(q.view.history) == Passes(e.view.history) ==> e.view.pass.Some?
    ensures q.view.pass.Some? && e.view.pass.Some? ==>
      Left(q.view) + (if a.Step? && a.k == p.k then 1 else 0) <= Left(e.view)
  {
    if a.Mutate? || a.k != p.k {
      OthersNext(e, q, a);
    } else {
      OwnGrows(e, q, a);
      PassesGrow(e.view.history, q.view.history);
      StaysOnTrack(p, c, e);
      if a.Begin? {
        BeginNext(e, q);
        if e.view.pass == None {
          assert q.view.history[..|q.view.history| - 1] == e.view.history;
        }
      } else {
        StepNext(e, q, a.answer);
        if e.view.pass.Some? {
          TrackShrinks(p, c, e, a.answer);
        }
      }
    }
  }

  lemma OneMoreStep(run: seq<Action>, a: Action, from: nat, k: Names.Key)
    requires from <= |run|
    ensures OwnSteps((run + [a])[from..], k) == OwnSteps(run[from..], k) + if a.Step? && a.k == k then 1 else 0
  {
    assert (run + [a])[from..] == run[from..] + [a];
    assert (run[from..] + [a])[..|run| - from] == run[from..];
  }

  lemma {:induction false} StepsAreBounded(p: Place, c: Cluster, m: Place, q: Place)
    requires IsReady(p, c) && Benign(p, m) && Benign(m, q)
    ensures PassesBetween(m, q) >= 0
    ensures PassesBetween(m, q) == 0 && q.view.pass.Some? ==>
      OwnSteps(q.run[|m.run|..], p.k) + Left(q.view) <= Left(m.view)
    decreases |q.run|
  {
    if |q.run| == |m.run| {
      SamePlace(m, q);
    } else {
      var e := Earlier(q);
      var a := q.run[|q.run| - 1];
      assert q.run == e.run + [a];
      BenignNext(m, e, q, a);
      BenignTwice(p, m, e);
      StepsAreBounded(p, c, m, e);
      ActionShrinks(p, c, e, q, a);
      OneMoreStep(e.run, a, |m.run|, p.k);
    }
  }

  /** A pass that is in progress ends after at most `Left` steps of its own, in every such schedule. */
  lemma EveryPassEnds(p: Place, c: Cluster, m: Place, q: Place)
    requires IsReady(p, c) && Benign(p, m) && Benign(m, q) && PassesBetween(m, q) == 0
    requires OwnSteps(q.run[|m.run|..], p.k) >= Left(m.view)
    ensures q.view.pass == None
  {
    StepsAreBounded(p, c, m, q);
    if q.view.pass.Some? {
      BenignTwice(p, m, q);
      StaysOnTrack(p, c, q);
      TrackShrinks(p, c, q, QUIET);
    }
  }

  // ----- Such schedules exist -----

  lemma GoodIsBenign(v: View, before: Store, after: Store, a: Answer, k: Names.Key)
    requires IsGood(a) && a.ready
    ensures IsBenignStep(v, a) && IsBenign(v, before, after, Step(k, a), k)
  {
  }

  /** One more step, over which nothing is found unready. */
  lemma Continued(p: Place, c: Cluster, m: Place, a: Answer) returns (q: Place)
    requires IsReady(p, c) && Benign(p, m) && m.view.pass.Some? && IsGood(a) && a.ready
    ensures Benign(p, q) && PassesBetween(m, q) == 0 && Left(q.view) < Left(m.view)
  {
    StaysOnTrack(p, c, m);
    q := Extended(m, Step(m.k, a));
    GoodIsBenign(m.view, m.store, q.store, a, p.k);
    BenignNext(p, m, q, Step(m.k, a));
    PassSteps(p, c, m, q, a);
    TrackShrinks(p, c, m, a);
    StepNext(m, q, a);
  }

  lemma {:induction false} Finished(p: Place, c: Cluster, m: Place) returns (q: Place)
    requires IsReady(p, c) && Benign(p, m)
    ensures Benign(p, q) && q.view.pass == None && PassesBetween(m, q) == 0
    decreases Left(m.view)
  {
    q := m;
    if m.view.pass.Some? {
      var answer := QUIET;
      q := Continued(p, c, m, answer);
      q := Finished(p, c, q);
    }
  }

  /** The StatefulSets have become ready; nothing else has changed. */
  function Readied(store: Store): Store
  {
    map k | k in store :: store[k].(live := ReadyLive(store[k].live))
  }

  function ReadyLive(l: Live): Live
  {
    l.(observedGeneration := l.generation, readyReplicas := l.replicas, currentReplicas := l.replicas)
  }

  lemma ReadiedIsOk(store: Store, spec: Spec)
    ensures Improvement.OnlyLive(store, Readied(store), spec) && Improvement.WatchedOk(Readied(store), spec)
  {
  }

  lemma BetweenPasses(p: Place, c: Cluster, m: Place)
    requires OnTrack(p, c, m) && m.view.pass == None
    ensures m.view.cluster.Some? && !m.view.cluster.value.deleting
  {
  }

  lemma MadeReady(p: Place, m: Place) returns (q: Place)
    requires Benign(p, m) && m.view.pass == None
    ensures Benign(p, q) && q.view == m.view && q.store == Readied(m.store)
  {
    var a := Mutate(Readied(m.store));
    q := Extended(m, a);
    if m.view.cluster.Some? {
      ReadiedIsOk(m.store, m.view.cluster.value.spec);
    }
    BenignNext(p, m, q, a);
  }

  lemma Begun(p: Place, m: Place) returns (q: Place)
    requires Benign(p, m) && m.view.pass == None && m.view.cluster.Some? && !m.view.cluster.value.deleting
    requires Improvement.WatchedOk(m.store, m.view.cluster.value.spec)
    ensures Benign(p, q) && PassesBetween(m, q) == 1
  {
    q := BeginCounts(m, m.view.cluster.value);
    BenignNext(p, m, q, Begin(p.k));
  }

  /** Any number of passes can follow one another, each from its beginning to its end. */
  lemma {:induction false} PassesFollow(p: Place, c: Cluster, n: nat) returns (q: Place)
    requires IsReady(p, c)
    ensures Benign(p, q) && q.view.pass == None && PassesBetween(p, q) == n
    decreases n
  {
    q := p;
    if n > 0 {
      var m := PassesFollow(p, c, n - 1);
      StaysOnTrack(p, c, m);
      BetweenPasses(p, c, m);
      var r := MadeReady(p, m);
      ReadiedIsOk(m.store, m.view.cluster.value.spec);
      r := Begun(p, r);
      q := Finished(p, c, r);
    }
  }
}
