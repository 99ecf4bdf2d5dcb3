/**
 Convergence over several passes, for every schedule in which nothing fails. Whatever is stored, as long as it is
 not foreign, and whatever phase a cluster that is not being deleted is in: after at most six passes everything is
 in place, and stays so. The cluster then is Running, except if it was in phase Error, nothing had to be patched,
 and the first pass saw nothing unready of what it created.
 */
module Convergence {
  import opened Text
  import opened Resources
  import opened Apply
  import opened Machine
  import opened Reconciler
  import opened Progress
  import opened Improvement
  import opened HealthyPasses
  import opened Schedules

  // ----- What is left to do -----

  /** How many deployers have objects that are not as desired. */
  ghost function Todo(store: Store, spec: Spec): (n: nat)
    ensures n <= 5
  {
    One(store, spec, Monitoring) + One(store, spec, Meta) + One(store, spec, Datanode) + One(store, spec, Frontend)
    + One(store, spec, Flownode)
  }

  ghost function One(store: Store, spec: Spec, role: Role): (n: nat)
    ensures n <= 1
  {
    if Settled(store, spec.Objects(role)) then 0 else 1
  }

  ghost predicate NoneUnsettled(before: Store, after: Store, spec: Spec)
  {
    forall r: Role :: Settled(before, spec.Objects(r)) ==> Settled(after, spec.Objects(r))
  }

  lemma OneShrinks(before: Store, after: Store, spec: Spec, role: Role)
    requires NoneUnsettled(before, after, spec)
    ensures One(after, spec, role) <= One(before, spec, role)
  {
  }

  lemma TodoShrinks(before: Store, after: Store, spec: Spec)
    requires NoneUnsettled(before, after, spec) && SomeSettled(before, after, spec)
    ensures Todo(after, spec) < Todo(before, spec)
  {
    OneShrinks(before, after, spec, Monitoring);
    OneShrinks(before, after, spec, Meta);
    OneShrinks(before, after, spec, Datanode);
    OneShrinks(before, after, spec, Frontend);
    OneShrinks(before, after, spec, Flownode);
    var r: Role :| !Settled(before, spec.Objects(r)) && Settled(after, spec.Objects(r));
    assert One(after, spec, r) < One(before, spec, r);
    match r
    case Monitoring =>
    case Meta =>
    case Datanode =>
    case Frontend =>
    case Flownode =>
  }

  /** Only the lists of desired objects matter. */
  lemma SameLists(store: Store, spec: Spec, other: Spec)
    requires spec.objects == other.objects
    ensures NeedsPatch(store, spec) <==> NeedsPatch(store, other)
    ensures AllSettled(store, spec) <==> AllSettled(store, other)
    ensures Todo(store, spec) == Todo(store, other)
    ensures WatchedOk(store, spec) <==> WatchedOk(store, other)
  {
    forall r: Role
      ensures spec.Objects(r) == other.Objects(r)
    {
    }
    SameWants(spec, other);
    assert Watched(spec) == Watched(other);
  }

  lemma SameWants(spec: Spec, other: Spec)
    requires spec.objects == other.objects
    ensures forall d :: Wanted(spec, d) <==> Wanted(other, d)
  {
    forall r: Role
      ensures spec.Objects(r) == other.Objects(r)
    {
    }
  }

  lemma SameChanges(before: Store, after: Store, spec: Spec, other: Spec)
    requires spec.objects == other.objects
    ensures OnlyLive(before, after, spec) <==> OnlyLive(before, after, other)
    ensures ReadyLasts(before, after, spec) <==> ReadyLasts(before, after, other)
  {
    SameWants(spec, other);
  }

  lemma SameSpecs(store: Store, spec: Spec, other: Spec)
    requires spec.objects == other.objects
    ensures CoherentSpec(spec) <==> CoherentSpec(other)
    ensures NothingForeign(store, spec) <==> NothingForeign(store, other)
  {
    SameWants(spec, other);
  }

  lemma LiveKeepsTodo(before: Store, after: Store, spec: Spec)
    requires OnlyLive(before, after, spec)
    ensures Todo(after, spec) == Todo(before, spec) && (AllSettled(before, spec) <==> AllSettled(after, spec))
    ensures NeedsPatch(before, spec) <==> NeedsPatch(after, spec)
    ensures NothingForeign(before, spec) <==> NothingForeign(after, spec)
  {
    forall r: Role
      ensures Settled(before, spec.Objects(r)) <==> Settled(after, spec.Objects(r))
    {
      LiveKeepsRole(before, after, spec, r);
    }
    forall d | Wanted(spec, d)
      ensures Compare(before, d) == Compare(after, d)
    {
      LiveKeepsFindings(before, after, spec, d);
    }
  }

  // ----- Between two passes -----

  /** The aim: the spec of the resource with its defaults. */
  function Aim(c: Cluster): Spec
  {
    Defaulted(c.spec)
  }

  /** The first pass had to wait: it patched something, or saw something unready. */
  ghost predicate FirstWaited(p: Place, c: Cluster, first: bool)
  {
    NeedsPatch(p.store, Aim(c)) || first
  }

  /** Everything is in place. */
  ghost predicate HasArrived(p: Place, c: Cluster, store: Store, d: Cluster, n: nat, first: bool)
  {
    && AllSettled(store, Aim(c)) && (n == 1 ==> !FirstWaited(p, c, first))
    && d.phase == if c.phase == Error && !FirstWaited(p, c, first) then Error else Running
  }

  /** Every pass so far has put the objects of a deployer in place. */
  ghost predicate IsOnItsWay(p: Place, c: Cluster, store: Store, d: Cluster, n: nat, first: bool)
  {
    && FirstWaited(p, c, first) && Todo(store, Aim(c)) + n <= Todo(p.store, Aim(c))
    && (d.phase == Starting || d.phase == Updating) && (n == 1 ==> d.phase == NextPhase(c.phase, true))
  }

  /** Where the cluster is `n` passes after `p`; `first` says whether the first of them saw something unready. */
  ghost predicate IsBetween(p: Place, c: Cluster, store: Store, d: Cluster, n: nat, first: bool)
  {
    && !d.deleting && NothingForeign(store, Aim(c))
    && if n == 0 then d == c && OnlyLive(p.store, store, Aim(c)) && !first
       else d.spec == Aim(c) && (HasArrived(p, c, store, d, n, first) || IsOnItsWay(p, c, store, d, n, first))
  }

  /** The `n`-th pass began as `s`, and has or has not seen something unready. */
  ghost predicate HasBegun(p: Place, c: Cluster, s: Start, n: nat, first: bool, unready: bool)
    requires n > 0
  {
    && IsBetween(p, c, s.store, s.cluster, n - 1, n > 1 && first)
    && (n == 1 ==> (unready <==> first))
  }

  ghost predicate IsWithin(p: Place, c: Cluster, v: View, store: Store, n: nat, first: bool)
    requires n > 0
  {
    exists s, unready :: HasBegun(p, c, s, n, first, unready) && Stands(s, v, store, unready)
  }

  lemma BetweenLasts(p: Place, c: Cluster, store: Store, after: Store, d: Cluster, n: nat, first: bool)
    requires IsBetween(p, c, store, d, n, first) && OnlyLive(store, after, Aim(c))
    ensures IsBetween(p, c, after, d, n, first)
  {
    LiveKeepsTodo(store, after, Aim(c));
  }

  lemma AllTodo(store: Store, spec: Spec)
    ensures AllSettled(store, spec) <==> Todo(store, spec) == 0
  {
    forall r: Role | Todo(store, spec) == 0
      ensures Settled(store, spec.Objects(r))
    {
      match r
      case Monitoring =>
      case Meta =>
      case Datanode =>
      case Frontend =>
      case Flownode =>
    }
  }

  lemma WaitedShrinks(s: Start, v: View, store: Store, unready: bool)
    requires Stands(s, v, store, unready) && v.pass == None && HasWaited(s, unready)
    ensures Todo(store, s.Spec()) < Todo(s.store, s.Spec())
  {
    forall r: Role | Settled(s.store, s.Spec().Objects(r))
      ensures Settled(store, s.Spec().Objects(r))
    {
      ImprovedStaysSettled(s.store, store, s.Spec(), r);
    }
    TodoShrinks(s.store, store, s.Spec());
  }

  lemma BegunSpec(p: Place, c: Cluster, s: Start, n: nat, first: bool, unready: bool)
    requires n > 0 && HasBegun(p, c, s, n, first, unready)
    ensures s.Spec() == Aim(c) && s.cluster.spec.objects == c.spec.objects
  {
  }

  /** The first pass ends. */
  lemma FirstEnds(p: Place, c: Cluster, s: Start, v: View, store: Store, first: bool, unready: bool)
    requires HasBegun(p, c, s, 1, first, unready) && Stands(s, v, store, unready) && v.pass == None
    ensures v.cluster.Some? && IsBetween(p, c, store, v.cluster.value, 1, first)
  {
    BegunSpec(p, c, s, 1, first, unready);
    ImprovedIsReadable(s.store, store, s.Spec());
    LiveKeepsTodo(p.store, s.store, Aim(c));
    if HasWaited(s, unready) {
      WaitedShrinks(s, v, store, unready);
    }
  }

  /** A later pass ends. */
  lemma LaterEnds(p: Place, c: Cluster, s: Start, v: View, store: Store, n: nat, first: bool, unready: bool)
    requires n > 1 && HasBegun(p, c, s, n, first, unready) && Stands(s, v, store, unready) && v.pass == None
    ensures v.cluster.Some? && IsBetween(p, c, store, v.cluster.value, n, first)
  {
    BegunSpec(p, c, s, n, first, unready);
    ImprovedIsReadable(s.store, store, s.Spec());
    if HasWaited(s, unready) {
      WaitedShrinks(s, v, store, unready);
      AllTodo(s.store, s.Spec());
    }
  }

  // ----- Where the run is -----

  /** `n` passes after `p`: between two passes, or within one. */
  ghost predicate IsOnTrack(p: Place, c: Cluster, v: View, store: Store, n: nat, first: bool)
  {
    && Passes(v.history) == Passes(p.view.history) + n
    && if v.pass == None then v.cluster.Some? && IsBetween(p, c, store, v.cluster.value, n, first)
       else n > 0 && IsWithin(p, c, v, store, n, first)
  }

  lemma StartsOnTrack(p: Place, c: Cluster)
    requires p.view.pass == None && p.view.cluster == Some(c) && !c.deleting && NothingForeign(p.store, c.spec)
    ensures IsOnTrack(p, c, p.view, p.store, 0, false)
  {
    SameSpecs(p.store, c.spec, Aim(c));
  }

  /** Others have acted. */
  lemma OthersKeepTrack(p: Place, c: Cluster, v: View, store: Store, after: Store, n: nat, first: bool)
    requires IsOnTrack(p, c, v, store, n, first)
    requires v.cluster.Some? ==>
      && OnlyLive(store, after, v.cluster.value.spec)
      && (v.pass.Some? ==> ReadyLasts(store, after, v.cluster.value.spec))
    ensures IsOnTrack(p, c, v, after, n, first)
  {
    if v.pass == None {
      SameChanges(store, after, v.cluster.value.spec, Aim(c));
      BetweenLasts(p, c, store, after, v.cluster.value, n, first);
    } else {
      var s, unready :| HasBegun(p, c, s, n, first, unready) && Stands(s, v, store, unready);
      BegunSpec(p, c, s, n, first, unready);
      StandingSpec(s, v, store, unready);
      SameChanges(store, after, v.cluster.value.spec, s.Spec());
      OthersAreSteady(s, v, store, unready, after);
    }
  }

  lemma StandingSpec(s: Start, v: View, store: Store, unready: bool)
    requires Stands(s, v, store, unready) && v.pass.Some?
    ensures v.cluster.Some? && v.cluster.value.spec.objects == s.Spec().objects
  {
  }

  /** A pass begins. */
  lemma BeginsOnTrack(p: Place, c: Cluster, v: View, store: Store, n: nat, first: bool)
    requires IsOnTrack(p, c, v, store, n, first) && v.pass == None && CoherentSpec(c.spec)
    requires v.cluster.value.phase != Terminating && WatchedOk(store, v.cluster.value.spec)
    ensures IsOnTrack(p, c, BeginStep(v), store, n + 1, first)
  {
    var d, w := v.cluster.value, BeginStep(v);
    var s := Start(store, d, |w.history|);
    SameSpecs(store, c.spec, s.Spec());
    SameLists(store, d.spec, s.Spec());
    assert w.history[..|w.history| - 1] == v.history;
    BeginningStands(s, w);
    assert HasBegun(p, c, s, n + 1, first, false);
  }

  lemma StepsCount(s: Start, v: View, store: Store, unready: bool, w: View, after: Store, later: bool)
    requires Stands(s, v, store, unready) && Stands(s, w, after, later) && v.history <= w.history
    ensures Passes(w.history) == Passes(v.history)
  {
    NoneBeganCounts(v.history, w.history);
  }

  /** A pass makes a step, which may be its last. */
  lemma StepLands(p: Place, c: Cluster, s: Start, w: View, after: Store, n: nat, first: bool, unready: bool)
    requires n > 0 && HasBegun(p, c, s, n, first, unready) && Stands(s, w, after, unready)
    requires Passes(w.history) == Passes(p.view.history) + n
    ensures IsOnTrack(p, c, w, after, n, first)
  {
    if w.pass == None {
      if n == 1 {
        FirstEnds(p, c, s, w, after, first, unready);
      } else {
        LaterEnds(p, c, s, w, after, n, first, unready);
      }
    }
  }

  lemma BegunLasts(p: Place, c: Cluster, s: Start, n: nat, first: bool, unready: bool, more: bool)
    requires n > 0 && HasBegun(p, c, s, n, first, unready)
    ensures HasBegun(p, c, s, n, first || (n == 1 && more), unready || more)
  {
  }

  /** A step of the `n`-th pass; `later` says whether the first one has seen something unready by then. */
  lemma StepMade(p: Place, c: Cluster, s: Start, v: View, store: Store, n: nat, first: bool, unready: bool, a: Answer,
      later: bool)
    requires n > 0 && HasBegun(p, c, s, n, first, unready) && Stands(s, v, store, unready)
    requires v.pass.Some? && InBounds(v.pass.value) && IsBenignStep(v, a)
    requires v.history <= PassStep(v, store, a).0.history && Passes(v.history) == Passes(p.view.history) + n
    requires later == (first || (n == 1 && IsUnready(v, store, a)))
    ensures var (w, after) := PassStep(v, store, a);
            IsOnTrack(p, c, w, after, n, later)
  {
    var (w, after) := PassStep(v, store, a);
    var more := IsUnready(v, store, a);
    StepIsSteady(s, v, store, unready, a);
    StepsCount(s, v, store, unready, w, after, unready || more);
    BegunLasts(p, c, s, n, first, unready, more);
    StepLands(p, c, s, w, after, n, later, unready || more);
  }

  lemma StepsOnTrack(p: Place, c: Cluster, v: View, store: Store, n: nat, first: bool, a: Answer, later: bool)
    requires IsOnTrack(p, c, v, store, n, first) && v.pass.Some? && InBounds(v.pass.value) && IsBenignStep(v, a)
    requires v.history <= PassStep(v, store, a).0.history
    requires later == (first || (n == 1 && IsUnready(v, store, a)))
    ensures var (w, after) := PassStep(v, store, a);
            IsOnTrack(p, c, w, after, n, later)
  {
    var s, unready :| HasBegun(p, c, s, n, first, unready) && Stands(s, v, store, unready);
    StepMade(p, c, s, v, store, n, first, unready, a, later);
  }

  // ----- Whole schedules -----

  /** A cluster between two passes that is not being deleted and whose objects are not foreign. */
  ghost predicate IsReady(p: Place, c: Cluster)
  {
    && p.view.pass == None && p.view.cluster == Some(c) && !c.deleting
    && CoherentSpec(c.spec) && NothingForeign(p.store, c.spec)
  }

  ghost predicate OnTrack(p: Place, c: Cluster, q: Place)
  {
    PassesBetween(p, q) >= 0 && IsOnTrack(p, c, q.view, q.store, PassesBetween(p, q), FirstSawUnready(p, q))
  }

  /** The view is the same, and the store is on the track. */
  lemma TrackStays(p: Place, c: Cluster, m: Place, q: Place)
    requires PassesBetween(p, m) >= 0 && q.view == m.view && (FirstSawUnready(p, q) <==> FirstSawUnready(p, m))
    requires IsOnTrack(p, c, m.view, q.store, PassesBetween(p, m), FirstSawUnready(p, m))
    ensures OnTrack(p, c, q)
  {
    var first := FirstSawUnready(p, m);
    assert first == FirstSawUnready(p, q);
  }

  lemma OthersAct(p: Place, c: Cluster, m: Place, q: Place, a: Action)
    requires IsNext(m, q, a) && p.run <= m.run && m.k == p.k && (a.Mutate? || a.k != p.k) && OnTrack(p, c, m)
    requires m.view.cluster.Some? ==>
      && OnlyLive(m.store, q.store, m.view.cluster.value.spec)
      && (m.view.pass.Some? ==> ReadyLasts(m.store, q.store, m.view.cluster.value.spec))
    ensures OnTrack(p, c, q)
  {
    OthersNext(m, q, a);
    UnreadyStays(p, m, q, a);
    OthersKeepTrack(p, c, m.view, m.store, q.store, PassesBetween(p, m), FirstSawUnready(p, m));
    TrackStays(p, c, m, q);
  }

  /** A begun pass is as it was, if it was already in progress. */
  lemma TrackBegins(p: Place, c: Cluster, m: Place, w: View)
    requires OnTrack(p, c, m) && m.view.pass == None && CoherentSpec(c.spec)
    requires m.view.cluster.Some? ==> WatchedOk(m.store, m.view.cluster.value.spec)
    requires w == BeginStep(m.view)
    ensures Passes(w.history) > Passes(p.view.history)
    ensures IsOnTrack(p, c, w, m.store, Passes(w.history) - Passes(p.view.history), FirstSawUnready(p, m))
  {
    NotTerminating(m, m.view.cluster.value);
    BeginsOnTrack(p, c, m.view, m.store, PassesBetween(p, m), FirstSawUnready(p, m));
  }

  lemma PassBegins(p: Place, c: Cluster, m: Place, q: Place)
    requires IsNext(m, q, Begin(m.k)) && p.run <= m.run && m.k == p.k && OnTrack(p, c, m) && CoherentSpec(c.spec)
    requires m.view.pass == None && m.view.cluster.Some? ==> WatchedOk(m.store, m.view.cluster.value.spec)
    ensures OnTrack(p, c, q)
  {
    BeginNext(m, q);
    UnreadyStays(p, m, q, Begin(m.k));
    if m.view.pass == None {
      TrackBegins(p, c, m, q.view);
    }
  }

  lemma WithinBounds(p: Place, c: Cluster, v: View, store: Store, n: nat, first: bool)
    requires IsOnTrack(p, c, v, store, n, first) && v.pass.Some?
    ensures InBounds(v.pass.value)
  {
    var s, unready :| HasBegun(p, c, s, n, first, unready) && Stands(s, v, store, unready);
    StandsInBounds(s, v, store, unready);
  }

  lemma TrackSteps(p: Place, c: Cluster, m: Place, a: Answer, w: View, after: Store, later: bool)
    requires OnTrack(p, c, m) && m.view.pass.Some? && InBounds(m.view.pass.value) && IsBenignStep(m.view, a)
    requires (w, after) == PassStep(m.view, m.store, a) && m.view.history <= w.history
    requires later == (FirstSawUnready(p, m) || (PassesBetween(p, m) == 1 && IsUnready(m.view, m.store, a)))
    ensures IsOnTrack(p, c, w, after, PassesBetween(p, m), later)
  {
    StepsOnTrack(p, c, m.view, m.store, PassesBetween(p, m), FirstSawUnready(p, m), a, later);
  }

  lemma PassSteps(p: Place, c: Cluster, m: Place, q: Place, a: Answer)
    requires IsNext(m, q, Step(m.k, a)) && p.run <= m.run && m.k == p.k && OnTrack(p, c, m) && IsBenignStep(m.view, a)
    ensures OnTrack(p, c, q) && PassesBetween(p, q) == PassesBetween(p, m)
  {
    StepNext(m, q, a);
    if m.view.pass.Some? {
      WithinBounds(p, c, m.view, m.store, PassesBetween(p, m), FirstSawUnready(p, m));
      OwnGrows(m, q, Step(m.k, a));
      UnreadyByStep(p, m, q, a);
      TrackSteps(p, c, m, a, q.view, q.store, FirstSawUnready(p, q));
    } else {
      UnreadyByStep(p, m, q, a);
    }
  }

  /** Every such schedule stays on the track. */
  lemma {:induction false} StaysOnTrack(p: Place, c: Cluster, q: Place)
    requires IsReady(p, c) && Benign(p, q)
    ensures OnTrack(p, c, q)
    decreases |q.run|
  {
    if |q.run| == |p.run| {
      SamePlace(p, q);
      StartsOnTrack(p, c);
    } else {
      var m := Earlier(q);
      var a := q.run[|q.run| - 1];
      assert q.run == m.run + [a];
      BenignNext(p, m, q, a);
      StaysOnTrack(p, c, m);
      if a.Mutate? || a.k != p.k {
        OthersAct(p, c, m, q, a);
      } else if a.Begin? {
        PassBegins(p, c, m, q);
      } else {
        PassSteps(p, c, m, q, a.answer);
      }
    }
  }

  /** All objects are in place, the defaults are written back, and the phase is the one promised. */
  ghost predicate HasConverged(p: Place, c: Cluster, q: Place)
  {
    && q.view.cluster.Some?
    && var d := q.view.cluster.value;
       && AllSettled(q.store, d.spec) && d.spec == Defaulted(c.spec) && !d.deleting
       && d.phase ==
            if c.phase == Error && !NeedsPatch(p.store, c.spec) && !FirstSawUnready(p, q) then Error else Running
  }

  /**
   Convergence, from every reachable state between two passes of a cluster that is not being deleted: whenever more
   passes have ended than deployers had something to do, which is after six of them at the latest, everything is in
   place. The phase is Error if and only if it was Error, nothing had to be patched, and no object that the first of
   these passes had created was seen unready by it; otherwise the phase is Running.
   */
  lemma ConvergesInSixPasses(p: Place, c: Cluster, q: Place)
    requires IsReady(p, c) && Benign(p, q) && q.view.pass == None
    requires PassesBetween(p, q) > Todo(p.store, c.spec)
    ensures Todo(p.store, c.spec) <= 5 && HasConverged(p, c, q)
  {
    StaysOnTrack(p, c, q);
    SameLists(p.store, c.spec, Aim(c));
  }

  /**
   One pass, from every such state: either it waited, which the phase then says, and the objects of at least one more
   deployer are in place; or they all are.
   */
  lemma PassRuns(p: Place, c: Cluster, q: Place)
    requires IsReady(p, c) && Benign(p, q) && q.view.pass == None && PassesBetween(p, q) == 1
    ensures q.view.cluster.Some? && q.view.cluster.value.spec == Defaulted(c.spec)
    ensures var waited := NeedsPatch(p.store, c.spec) || FirstSawUnready(p, q);
      && q.view.cluster.value.phase == NextPhase(c.phase, waited)
      && (if waited then Todo(q.store, c.spec) < Todo(p.store, c.spec) else AllSettled(q.store, c.spec))
  {
    StaysOnTrack(p, c, q);
    SameLists(p.store, c.spec, Aim(c));
    SameLists(q.store, c.spec, Aim(c));
    NotTerminating(p, c);
  }
}
