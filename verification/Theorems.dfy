/**
 The guarantees of the control protocol over every run: any number of clusters,
 any interleaving of their passes, any failures of reads, writes and calls.
 */
module Theorems {
  import opened Text
  import opened Names
  import opened Resources
  import opened Machine
  import opened Histories
  import Invariants
  import Maintenance
  import Calm

  // ----- From one view to the whole system -----

  /** No action on one cluster changes another cluster's resource, pass, flag, metasrv or history. */
  lemma Isolation(s: State, a: Action, k: Key)
    requires a.Mutate? || a.k != k
    ensures ViewOf(Next(s, a), k) == ViewOf(s, k)
  {
    if !a.Mutate? {
      if MetaHost(a.k) == MetaHost(k) {
        MetaHostInjective(a.k, k);
      }
    }
  }

  lemma PutThenGet(s: State, k: Key, v: View)
    ensures ViewOf(PutView(s, k, v), k) == v
  {
  }

  lemma OwnStep(s: State, a: Action)
    requires !a.Mutate?
    ensures ViewOf(Next(s, a), a.k) == ViewStep(ViewOf(s, a.k), s.store, a).0
  {
    var (v, store) := ViewStep(ViewOf(s, a.k), s.store, a);
    PutThenGet(s, a.k, v);
    assert Next(s, a) == PutView(s, a.k, v).(store := store);
  }

  /** The invariant of every cluster holds in every reachable state. */
  lemma {:induction false} Always(actions: seq<Action>, k: Key)
    ensures Invariants.Inv(ViewOf(Run(actions), k))
    decreases |actions|
  {
    if actions == [] {
      assert Invariants.Inv(FRESH);
    } else {
      var before, a := actions[..|actions| - 1], actions[|actions| - 1];
      Always(before, k);
      if a.Mutate? || a.k != k {
        Isolation(Run(before), a, k);
      } else {
        OwnStep(Run(before), a);
        Invariants.InvKept(ViewOf(Run(before), k), Run(before).store, a);
      }
    }
  }

  /** The user keeps failover and datanodes in the spec of `k` whenever the flag of `k` is armed. */
  ghost predicate HookKeptThroughout(actions: seq<Action>, k: Key)
  {
    forall i :: 0 <= i <= |actions| ==> Maintenance.HookKept(ViewOf(Run(actions[..i]), k))
  }

  lemma {:induction false} AlwaysInMaintenance(actions: seq<Action>, k: Key)
    requires HookKeptThroughout(actions, k)
    ensures Maintenance.Guarded(ViewOf(Run(actions), k)) && Maintenance.AlwaysGuarded(HistoryOf(actions, k))
    decreases |actions|
  {
    if actions != [] {
      var before, a := actions[..|actions| - 1], actions[|actions| - 1];
      assert forall i :: 0 <= i <= |before| ==> before[..i] == actions[..i];
      AlwaysInMaintenance(before, k);
      if a.Mutate? || a.k != k {
        Isolation(Run(before), a, k);
      } else {
        OwnStep(Run(before), a);
        Always(before, k);
        assert before == actions[..|before|];
        Maintenance.GuardKept(ViewOf(Run(before), k), Run(before).store, a);
      }
    }
  }

  // ----- Agreement of flag and metasrv -----

  /** A cluster that serves is never left in maintenance by anyone but an armed datanode roll. */
  lemma ServingMaintenanceIsOwned(actions: seq<Action>, k: Key)
    requires var v := ViewOf(Run(actions), k); v.cluster.Some? && Invariants.Serving(v.cluster.value.phase)
    ensures ViewOf(Run(actions), k).on ==> ViewOf(Run(actions), k).armed
    ensures !ViewOf(Run(actions), k).cluster.value.maintenance
  {
    Always(actions, k);
  }

  /** In Running and Updating the metasrv is in maintenance exactly when the datanode flag is armed. */
  lemma MaintenanceAgreement(actions: seq<Action>, k: Key)
    requires HookKeptThroughout(actions, k)
    requires var v := ViewOf(Run(actions), k); v.cluster.Some? && Invariants.Serving(v.cluster.value.phase)
    ensures MetaHost(k) in Run(actions).maintained <==> k in Run(actions).armed
  {
    Always(actions, k);
    AlwaysInMaintenance(actions, k);
  }

  /**
   What the condition is worth: from a view in which an armed flag means maintenance, a step
   loses that in exactly one way, by closing creation-time maintenance with the flag armed.
   */
  lemma AgreementLostExactlyAtClose(v: View, store: Store, a: Action)
    requires Invariants.Inv(v) && !a.Mutate? && (v.armed ==> v.on)
    ensures var w := ViewStep(v, store, a).0;
            (w.armed && !w.on) <==>
            (v.armed && a.Step? && v.pass.Some? && v.pass.value.pc.Closing? && v.pass.value.maintenance
                && a.answer.call)
  {
    if a.Step? && v.pass.Some? && InBounds(v.pass.value) {
      if Calm.IsEventful(v.pass.value.pc) {
        EventfulBits(v, store, a.answer);
      } else {
        Calm.CalmStep(v, store, a.answer);
      }
    }
  }

  lemma EventfulBits(v: View, store: Store, a: Answer)
    requires v.pass.Some? && InBounds(v.pass.value) && Calm.IsEventful(v.pass.value.pc)
    ensures var w, p := PassStep(v, store, a).0, v.pass.value;
            w.armed == v.armed && w.on == (v.on && !(p.pc.Closing? && p.maintenance && a.call))
  {
  }

  // ----- What a history means, event by event -----

  /** The index of the first event after the last Began. */
  function PassStart(h: seq<Event>): (b: nat)
    ensures b <= |h|
    ensures b > 0 ==> h[b - 1].Began?
    ensures forall i :: b <= i < |h| ==> !h[i].Began?
  {
    if h == [] then 0 else if h[|h| - 1].Began? then |h| else PassStart(h[..|h| - 1])
  }

  predicate Happened(h: seq<Event>, from: nat, e: Event)
  {
    exists i :: from <= i < |h| && h[i] == e
  }

  predicate DeployedSince(h: seq<Event>, from: nat)
  {
    exists i :: from <= i < |h| && IsDeployment(h[i])
  }

  predicate SeenReadySince(h: seq<Event>, from: nat, key: ObjectKey)
  {
    exists i :: from <= i < |h| && IsSeenReady(h[i]) && h[i].key == key
  }

  predicate RolesExact(h: seq<Event>, s: Past, b: nat)
  {
    && (forall r: Role :: r in s.succeeded <==> Happened(h, b, Succeeded(r)))
    && (forall r: Role :: r in s.cleaned <==> Happened(h, b, Cleaned(r)))
  }

  ghost predicate DatanodesExact(h: seq<Event>, s: Past, b: nat)
  {
    && (s.deployed <==> DeployedSince(h, b))
    && (s.patched <==> exists i :: b <= i < |h| && IsDatanodePatch(h[i]))
    && (forall key :: key in s.seen <==> SeenReadySince(h, b, key))
  }

  /** The summary says exactly what the events since the last Began say. */
  lemma {:induction false} SummaryIsExact(h: seq<Event>)
    ensures IsExact(h, Recall(h), PassStart(h))
    decreases |h|
  {
    if h != [] {
      var g, e := h[..|h| - 1], h[|h| - 1];
      SummaryIsExact(g);
      assert g + [e] == h;
      if e.Began? {
        BeginIsExact(g, e, Recall(g));
      } else {
        OneMoreIsExact(g, e, Recall(g), PassStart(g));
      }
    }
  }

  ghost predicate IsExact(h: seq<Event>, s: Past, b: nat)
    requires b <= |h|
  {
    s.opening == (if b > 0 then Some(h[b - 1]) else None) && RolesExact(h, s, b) && DatanodesExact(h, s, b)
  }

  lemma BeginIsExact(g: seq<Event>, e: Event, s: Past)
    requires e.Began?
    ensures IsExact(g + [e], Extend(s, e), |g| + 1)
  {
  }

  lemma OneMoreIsExact(g: seq<Event>, e: Event, s: Past, b: nat)
    requires b <= |g| && IsExact(g, s, b) && !e.Began?
    ensures IsExact(g + [e], Extend(s, e), b)
  {
    RolesStayExact(g, e, s, b);
    DatanodesStayExact(g, e, s, b);
  }

  lemma RolesStayExact(g: seq<Event>, e: Event, s: Past, b: nat)
    requires b <= |g| && RolesExact(g, s, b) && !e.Began?
    ensures RolesExact(g + [e], Extend(s, e), b)
  {
    forall x
      ensures Happened(g + [e], b, x) <==> Happened(g, b, x) || x == e
    {
      HappenedLater(g, e, b, x);
    }
  }

  lemma DatanodesStayExact(g: seq<Event>, e: Event, s: Past, b: nat)
    requires b <= |g| && DatanodesExact(g, s, b) && !e.Began?
    ensures DatanodesExact(g + [e], Extend(s, e), b)
  {
    forall key
      ensures SeenReadySince(g + [e], b, key) <==> SeenReadySince(g, b, key) || (IsSeenReady(e) && e.key == key)
    {
      SeenLater(g, e, b, key);
    }
    PatchLater(g, e, b);
    DeployedLater(g, e, b);
  }

  lemma DeployedLater(g: seq<Event>, e: Event, b: nat)
    requires b <= |g|
    ensures DeployedSince(g + [e], b) <==> DeployedSince(g, b) || IsDeployment(e)
  {
    var h := g + [e];
    if DeployedSince(g, b) {
      var i :| b <= i < |g| && IsDeployment(g[i]);
      assert h[i] == g[i];
    }
    if IsDeployment(e) {
      assert h[|g|] == e;
    }
  }

  lemma HappenedLater(g: seq<Event>, e: Event, b: nat, x: Event)
    requires b <= |g|
    ensures Happened(g + [e], b, x) <==> Happened(g, b, x) || x == e
  {
    var h := g + [e];
    if Happened(g, b, x) {
      var i :| b <= i < |g| && g[i] == x;
      assert h[i] == x;
    }
    if x == e {
      assert h[|g|] == x;
    }
  }

  lemma SeenLater(g: seq<Event>, e: Event, b: nat, key: ObjectKey)
    requires b <= |g|
    ensures SeenReadySince(g + [e], b, key) <==> SeenReadySince(g, b, key) || (IsSeenReady(e) && e.key == key)
  {
    var h := g + [e];
    if SeenReadySince(g, b, key) {
      var i :| b <= i < |g| && IsSeenReady(g[i]) && g[i].key == key;
      assert h[i] == g[i];
    }
    if IsSeenReady(e) && e.key == key {
      assert h[|g|] == e;
    }
  }

  lemma PatchLater(g: seq<Event>, e: Event, b: nat)
    requires b <= |g|
    ensures (exists i :: b <= i < |g| + 1 && IsDatanodePatch((g + [e])[i])) <==>
            (exists i :: b <= i < |g| && IsDatanodePatch(g[i])) || IsDatanodePatch(e)
  {
    var h := g + [e];
    if i :| b <= i < |g| && IsDatanodePatch(g[i]) {
      assert h[i] == g[i];
    }
    if IsDatanodePatch(e) {
      assert h[|g|] == e;
    }
  }

  lemma EventJustified(actions: seq<Action>, k: Key, i: nat)
    requires i < |HistoryOf(actions, k)|
    ensures var h := HistoryOf(actions, k); Justified(Recall(h[..i]), h[i])
  {
    Always(actions, k);
  }

  // ----- Restart coverage -----

  /** What is watched is every StatefulSet among the desired datanode objects, and nothing else. */
  lemma WatchedExactly(spec: Spec, key: ObjectKey)
    ensures key in Watched(spec) <==>
      exists d :: d in spec.Objects(Datanode) && d.key == key && key.kind == "StatefulSet"
  {
    StatefulSetsExactly(spec.Objects(Datanode), key);
  }

  lemma {:induction false} StatefulSetsExactly(ds: seq<Desired>, key: ObjectKey)
    ensures key in StatefulSetKeys(ds) <==> exists d :: d in ds && d.key == key && key.kind == "StatefulSet"
    decreases |ds|
  {
    if ds != [] {
      StatefulSetsExactly(ds[1..], key);
      assert forall d :: d in ds <==> d == ds[0] || d in ds[1..];
    }
  }

  /** A pass that started after `i` patched no datanode object and saw every watched StatefulSet ready before `j`. */
  ghost predicate Earned(h: seq<Event>, i: nat, j: nat)
    requires j < |h| && h[j].Off?
  {
    exists b :: i < b <= j && h[b - 1].Began? && QuietSince(h, b, j) && AllSeenSince(h, b, j)
  }

  predicate QuietSince(h: seq<Event>, b: nat, j: nat)
    requires b <= j < |h|
  {
    forall m :: b <= m < j ==> !h[m].Began? && !IsDatanodePatch(h[m])
  }

  predicate AllSeenSince(h: seq<Event>, b: nat, j: nat)
    requires b <= j < |h| && h[j].Off?
  {
    forall n :: 0 <= n < |h[j].watched| ==> SeenReadySince(h[..j], b, h[j].watched[n])
  }

  /**
   Every StatefulSet patch judged to restart pods happens while the metasrv is in maintenance;
   it stays there until an OFF; and every later OFF, from either path, comes from a later pass
   in which no datanode object was patched and every datanode StatefulSet was seen fully ready.
   */
  lemma RestartCoverage(actions: seq<Action>, k: Key, i: nat)
    requires HookKeptThroughout(actions, k)
    requires i < |HistoryOf(actions, k)| && HistoryOf(actions, k)[i].Wrote?
    requires IsRestart(HistoryOf(actions, k)[i].kind)
    ensures var h := HistoryOf(actions, k);
      && Recall(h[..i]).maintained
      && (forall j :: i <= j <= |h| && (forall m :: i <= m < j ==> !h[m].Off?) ==> Recall(h[..j]).maintained)
      && (forall j :: i < j < |h| && h[j].Off? ==> Earned(h, i, j))
  {
    var h := HistoryOf(actions, k);
    EventJustified(actions, k, i);
    AlwaysInMaintenance(actions, k);
    forall j | i <= j <= |h| && forall m :: i <= m < j ==> !h[m].Off?
      ensures Recall(h[..j]).maintained
    {
      MaintainedUntilOff(h, i, j);
    }
    forall j | i < j < |h| && h[j].Off?
      ensures Earned(h, i, j)
    {
      EventJustified(actions, k, j);
      OffIsEarned(h, i, j);
    }
  }

  /**
   Every patch records whether its pod templates were compared, exactly if it is of a datanode StatefulSet with
   region failover on; and unless the flag was armed, the two differ in no field that restarts pods.
   */
  lemma PatchesAreJudged(actions: seq<Action>, k: Key, i: nat)
    requires i < |HistoryOf(actions, k)|
    requires HistoryOf(actions, k)[i].Wrote? && HistoryOf(actions, k)[i].kind.Patch?
    ensures var Wrote(role, d, Patch(failover, compared)) := HistoryOf(actions, k)[i];
      && (compared.Some? <==> role == Datanode && d.IsStatefulSet() && failover)
      && (compared.Some? ==>
            var Comparison(new', old') := compared.value;
            new' == d.template && (Recall(HistoryOf(actions, k)[..i]).armed || new' == old'.(others := new'.others)))
  {
    EventJustified(actions, k, i);
    var compared := HistoryOf(actions, k)[i].kind.compared;
    if compared.Some? {
      NoRestartExactly(compared.value.new', compared.value.old');
    }
  }

  lemma {:induction false} MaintainedUntilOff(h: seq<Event>, i: nat, j: nat)
    requires i <= j <= |h| && Recall(h[..i]).maintained
    requires forall m :: i <= m < j ==> !h[m].Off?
    ensures Recall(h[..j]).maintained
    decreases j
  {
    if i < j {
      MaintainedUntilOff(h, i, j - 1);
      RecallStep(h, j);
      OnlyOffEnds(Recall(h[..j - 1]), h[j - 1]);
    }
  }

  lemma OnlyOffEnds(s: Past, e: Event)
    requires s.maintained && !e.Off?
    ensures Extend(s, e).maintained
  {
  }

  lemma OffIsEarned(h: seq<Event>, i: nat, j: nat)
    requires i < j < |h| && h[j].Off? && IsDatanodePatch(h[i]) && Justified(Recall(h[..j]), h[j])
    ensures Earned(h, i, j)
  {
    var g := h[..j];
    var b := PassStart(g);
    SummaryIsExact(g);
    assert forall m :: b <= m < j ==> g[m] == h[m];
    assert b > i by {
      assert g[i] == h[i];
    }
    assert h[b - 1] == g[b - 1];
    assert QuietSince(h, b, j) && AllSeenSince(h, b, j);
  }

  /** An observation in a history is what the store held when it was made. */
  lemma ObservationsAreTrue(s: State, k: Key, answer: Answer, key: ObjectKey, found: Option<Object>)
    requires ViewOf(Next(s, Step(k, answer)), k).history == ViewOf(s, k).history + [Observed(key, found)]
    ensures found == if key in s.store then Some(s.store[key]) else None
  {
    var v := ViewOf(s, k);
    OwnStep(s, Step(k, answer));
    ObservationIsTrue(v, s.store, answer, key, found);
  }

  lemma ObservationIsTrue(v: View, store: Store, a: Answer, key: ObjectKey, found: Option<Object>)
    requires v.pass.Some? && InBounds(v.pass.value)
    requires PassStep(v, store, a).0.history == v.history + [Observed(key, found)]
    ensures found == if key in store then Some(store[key]) else None
  {
    var p, w := v.pass.value, PassStep(v, store, a).0;
    assert w.history[|w.history| - 1] == Observed(key, found);
    if !Calm.IsEventful(p.pc) {
      Calm.CalmStep(v, store, a);
    }
  }

  // ----- Alternation -----

  /** The calls of the datanode deployer for one cluster, in order, true for ON. */
  function DatanodeCalls(h: seq<Event>): seq<bool>
  {
    if h == [] then [] else WithCall(DatanodeCalls(h[..|h| - 1]), h[|h| - 1])
  }

  function WithCall(calls: seq<bool>, e: Event): seq<bool>
  {
    if (e.On? || e.Off?) && e.caller == DatanodeDeployer then calls + [e.On?] else calls
  }

  predicate Alternates(calls: seq<bool>)
  {
    forall i :: 0 <= i < |calls| ==> (calls[i] <==> i % 2 == 0)
  }

  lemma CallAlternates(s: Past, e: Event, calls: seq<bool>)
    requires Justified(s, e) && Alternates(calls) && (s.armed <==> |calls| % 2 == 1)
    ensures Alternates(WithCall(calls, e)) && (Extend(s, e).armed <==> |WithCall(calls, e)| % 2 == 1)
  {
  }

  lemma {:induction false} CallsAlternate(h: seq<Event>)
    requires WellJustified(h)
    ensures Alternates(DatanodeCalls(h))
    ensures Recall(h).armed <==> |DatanodeCalls(h)| % 2 == 1
    decreases |h|
  {
    if h != [] {
      var g, e := h[..|h| - 1], h[|h| - 1];
      PrefixJustified(h);
      CallsAlternate(g);
      CallAlternates(Recall(g), e, DatanodeCalls(g));
    }
  }

  lemma PrefixJustified(h: seq<Event>)
    requires WellJustified(h) && h != []
    ensures WellJustified(h[..|h| - 1]) && Justified(Recall(h[..|h| - 1]), h[|h| - 1])
  {
    var g := h[..|h| - 1];
    forall i | 0 <= i < |g|
      ensures Justified(Recall(g[..i]), g[i])
    {
      assert g[..i] == h[..i] && g[i] == h[i];
    }
  }

  /** ON, OFF, ON, ... strictly, and the flag is armed exactly when the last call was ON. */
  lemma Alternation(actions: seq<Action>, k: Key)
    ensures Alternates(DatanodeCalls(HistoryOf(actions, k)))
    ensures k in Run(actions).armed <==> |DatanodeCalls(HistoryOf(actions, k))| % 2 == 1
  {
    Always(actions, k);
    CallsAlternate(HistoryOf(actions, k));
  }

  // ----- Rollout order, phases, deletion -----

  /** The order of the rollout: monitoring, metasrv, datanodes, frontends, flownodes. */
  predicate ComesBefore(r: Role, q: Role)
  {
    match q
    case Monitoring => false
    case Meta => r == Monitoring
    case Datanode => r == Monitoring || r == Meta
    case Frontend => r != Frontend && r != Flownode
    case Flownode => r != Flownode
  }

  /** An object is written only if every earlier deployer returned success in the same pass. */
  lemma RolloutOrder(actions: seq<Action>, k: Key, i: nat, r: Role)
    requires i < |HistoryOf(actions, k)| && HistoryOf(actions, k)[i].Wrote?
    requires ComesBefore(r, HistoryOf(actions, k)[i].role)
    ensures var g := HistoryOf(actions, k)[..i]; Happened(g, PassStart(g), Succeeded(r))
  {
    EventJustified(actions, k, i);
    SummaryIsExact(HistoryOf(actions, k)[..i]);
  }

  /** What a change of the persisted phase says about the pass that made it. */
  ghost predicate MoveFits(g: seq<Event>, from: Phase, to: Phase)
  {
    && Edge(from, to) && from == Recall(g).phase
    && (to == Running <==> forall r: Role :: Happened(g, PassStart(g), Succeeded(r)))
    && (to == Error ==> !DeployedSince(g, PassStart(g)))
  }

  /**
   The persisted phase follows the graph. A pass in which all deployers succeeded changes it to Running or not
   at all, and Running is entered only so; in particular such a pass does not leave Error. And Error is entered
   only by a pass whose deployers have not done anything.
   */
  lemma PhaseSafety(actions: seq<Action>, k: Key, i: nat)
    requires i < |HistoryOf(actions, k)| && HistoryOf(actions, k)[i].Moved?
    ensures var h := HistoryOf(actions, k); MoveFits(h[..i], h[i].from, h[i].to)
  {
    var g := HistoryOf(actions, k)[..i];
    EventJustified(actions, k, i);
    SummaryIsExact(g);
    AllRoles(Recall(g).succeeded);
    assert Happened(g, PassStart(g), Succeeded(Flownode)) <==> Flownode in Recall(g).succeeded;
  }

  lemma AllRoles(roles: set<Role>)
    ensures FirstRoles(5, roles) <==> forall r: Role :: r in roles
  {
    if FirstRoles(5, roles) {
      forall r: Role
        ensures r in roles
      {
        match r
        case Monitoring =>
        case Meta =>
        case Datanode =>
        case Frontend =>
        case Flownode =>
      }
    }
  }

  /**
   Between two updates of the spec with its defaults, somebody edited it: an unedited cluster is updated at
   most once.
   */
  lemma UpdatedAtMostOnce(actions: seq<Action>, k: Key, i: nat, j: nat)
    requires i < j < |HistoryOf(actions, k)|
    requires HistoryOf(actions, k)[i] == Updated && HistoryOf(actions, k)[j] == Updated
    ensures exists m :: i < m < j && HistoryOf(actions, k)[m] == Edited
  {
    var h := HistoryOf(actions, k);
    EventJustified(actions, k, j);
    if forall m :: i < m < j ==> h[m] != Edited {
      StaysComplete(h, i, j);
    }
  }

  lemma {:induction false} StaysComplete(h: seq<Event>, i: nat, j: nat)
    requires i < j <= |h| && h[i] == Updated && forall m :: i < m < j ==> h[m] != Edited
    ensures Recall(h[..j]).complete
    decreases j
  {
    RecallStep(h, j);
    if i < j - 1 {
      StaysComplete(h, i, j - 1);
    }
    OnlyEditsIncomplete(Recall(h[..j - 1]), h[j - 1]);
  }

  lemma OnlyEditsIncomplete(s: Past, e: Event)
    requires e == Updated || (s.complete && e != Edited)
    ensures Extend(s, e).complete
  {
  }

  /**
   Once phase Error is written, the controller ends creation-time maintenance only after some pass that was not
   ready has led back to Starting. Healthy passes do not, however many there are.
   */
  lemma ErrorHoldsMaintenance(actions: seq<Action>, k: Key, i: nat, j: nat)
    requires i < j < |HistoryOf(actions, k)|
    requires HistoryOf(actions, k)[i].Moved? && HistoryOf(actions, k)[i].to == Error
    requires HistoryOf(actions, k)[j].Off? && HistoryOf(actions, k)[j].caller == Controller
    ensures exists m :: i < m < j && HistoryOf(actions, k)[m] == Moved(Error, Starting)
  {
    var h := HistoryOf(actions, k);
    Always(actions, k);
    EventJustified(actions, k, j);
    if forall m :: i < m < j ==> h[m] != Moved(Error, Starting) {
      StaysFailed(h, i, j);
    }
  }

  lemma {:induction false} StaysFailed(h: seq<Event>, i: nat, j: nat)
    requires i < j <= |h| && WellJustified(h) && h[i].Moved? && h[i].to == Error
    requires forall m :: i < m < j ==> h[m] != Moved(Error, Starting)
    ensures Recall(h[..j]).phase == Error || Recall(h[..j]).phase == Terminating
    decreases j
  {
    RecallStep(h, j);
    if i < j - 1 {
      StaysFailed(h, i, j - 1);
      JustifiedAt(h, j - 1);
      OnlyStartingRecovers(Recall(h[..j - 1]), h[j - 1]);
    } else {
      MovesThere(Recall(h[..j - 1]), h[j - 1]);
    }
  }

  lemma OnlyStartingRecovers(s: Past, e: Event)
    requires (s.phase == Error || s.phase == Terminating) && Justified(s, e) && e != Moved(Error, Starting)
    ensures Extend(s, e).phase == Error || Extend(s, e).phase == Terminating
  {
  }

  /** The phase a client reads is the one the moves lead to. */
  lemma PersistedPhase(actions: seq<Action>, k: Key)
    requires k in Run(actions).clusters
    ensures Run(actions).clusters[k].phase == Recall(HistoryOf(actions, k)).phase
  {
    Always(actions, k);
  }

  /** Once Terminating, the phase never moves again. */
  lemma TerminatingAbsorbs(actions: seq<Action>, k: Key, i: nat, j: nat)
    requires i < j < |HistoryOf(actions, k)|
    requires HistoryOf(actions, k)[i].Moved? && HistoryOf(actions, k)[i].to == Terminating
    ensures !HistoryOf(actions, k)[j].Moved?
  {
    var h := HistoryOf(actions, k);
    Always(actions, k);
    StaysTerminating(h, i, j);
    EventJustified(actions, k, j);
  }

  lemma {:induction false} StaysTerminating(h: seq<Event>, i: nat, j: nat)
    requires i < j <= |h| && WellJustified(h) && h[i].Moved? && h[i].to == Terminating
    ensures Recall(h[..j]).phase == Terminating
    decreases j
  {
    RecallStep(h, j);
    if i < j - 1 {
      StaysTerminating(h, i, j - 1);
      JustifiedAt(h, j - 1);
      StuckAtTerminating(Recall(h[..j - 1]), h[j - 1]);
    } else {
      MovesThere(Recall(h[..j - 1]), h[j - 1]);
    }
  }

  lemma JustifiedAt(h: seq<Event>, i: nat)
    requires WellJustified(h) && i < |h|
    ensures Justified(Recall(h[..i]), h[i])
  {
  }

  lemma MovesThere(s: Past, e: Event)
    requires e.Moved?
    ensures Extend(s, e).phase == e.to
  {
  }

  lemma StuckAtTerminating(s: Past, e: Event)
    requires s.phase == Terminating && Justified(s, e)
    ensures !e.Moved? && Extend(s, e).phase == Terminating
  {
  }

  /** The finalizer goes only in a pass that began with Terminating persisted and in which every clean-up succeeded. */
  lemma DeletionSafety(actions: seq<Action>, k: Key, i: nat)
    requires i < |HistoryOf(actions, k)| && HistoryOf(actions, k)[i] == Released
    ensures var g := HistoryOf(actions, k)[..i];
      && PassStart(g) > 0 && g[PassStart(g) - 1] == Began(Terminating, true)
      && forall r: Role :: Happened(g, PassStart(g), Cleaned(r))
  {
    EventJustified(actions, k, i);
    ReleaseIsSafe(HistoryOf(actions, k)[..i]);
  }

  lemma ReleaseIsSafe(g: seq<Event>)
    requires Justified(Recall(g), Released)
    ensures PassStart(g) > 0 && g[PassStart(g) - 1] == Began(Terminating, true)
    ensures forall r: Role :: Happened(g, PassStart(g), Cleaned(r))
  {
    SummaryIsExact(g);
    AllRoles(Recall(g).cleaned);
  }

  /** And nothing else takes the finalizer away, or the resource while it is there. */
  lemma FinalizerGoesOnlyByRelease(v: View, store: Store, a: Action)
    requires Invariants.Inv(v) && !a.Mutate? && v.cluster.Some? && v.cluster.value.finalizer
    ensures var w := ViewStep(v, store, a).0;
            || (w.cluster.Some? && w.cluster.value.finalizer)
            || (w.cluster.Some? && w.history == v.history + [Released])
  {
    if a.Step? && v.pass.Some? && InBounds(v.pass.value) {
      if Calm.IsEventful(v.pass.value.pc) {
        EventfulFinalizer(v, store, a.answer);
      } else {
        Calm.CalmStep(v, store, a.answer);
      }
    }
  }

  lemma EventfulFinalizer(v: View, store: Store, a: Answer)
    requires v.pass.Some? && InBounds(v.pass.value) && Calm.IsEventful(v.pass.value.pc)
    ensures var w := PassStep(v, store, a).0;
            w.cluster == v.cluster || (w.cluster.Some? && w.history == v.history + [Released])
  {
  }
}
