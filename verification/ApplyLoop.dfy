/**
 The apply loop within a pass, undisturbed, is the apply pass of module `Apply`: the same answers lead to the
 same store and to the same result. What is proved there about convergence therefore holds within a pass.
 */
module ApplyLoop {
  import opened Text
  import Names
  import opened Resources
  import opened Apply
  import opened Machine
  import opened Reconciler
  import Progress

  /** The answer that a step gets while the API server replies so; maintenance calls succeed. */
  function AnswerOf(reply: Reply): Answer
  {
    Answer(reply.readOk, true, reply.write, true, reply.live)
  }

  /** The view at another point of the pass, the datanode flag possibly armed on the way, and no new pass. */
  predicate Rolled(v: View, w: View, at: Option<Pass>)
  {
    && w == v.(pass := at, armed := w.armed, on := w.on, history := w.history)
    && Progress.NoneBegan(v.history, w.history)
    && ((w.armed == v.armed && w.on == v.on) || (w.armed && w.on))
  }

  // ----- The steps that a list of replies makes -----

  /** The look-up of an object, the decision on maintenance if there is one to make, and the write if there is one. */
  function ObjectActions(k: Names.Key, store: Store, spec: Spec, role: Role, d: Desired, reply: Reply): seq<Action>
  {
    var step := Step(k, AnswerOf(reply));
    if !reply.readOk || !IsDifferent(store, d) then [step]
    else if role == Datanode && d.IsStatefulSet() && spec.failover then [step, step, step]
    else [step, step]
  }

  /** The loop from object `i` on: every object is answered by its own reply, until one of them ends the pass. */
  function LoopActions(k: Names.Key, store: Store, spec: Spec, role: Role, i: nat, replies: seq<Reply>): seq<Action>
    requires i + |replies| == |spec.Objects(role)|
    decreases |replies|
  {
    if replies == [] then [Step(k, QUIET)]
    else
      var d := spec.Objects(role)[i];
      var (next, effect) := ApplyOne(store, d, replies[0]);
      ObjectActions(k, store, spec, role, d, replies[0])
      + if effect == Stopped then [] else LoopActions(k, next, spec, role, i + 1, replies[1..])
  }

  /** Where the loop goes after an object. */
  function Beyond(pass: Pass, role: Role, i: nat, updated: bool, effect: Effect): Option<Pass>
  {
    if effect == Stopped then None else Some(pass.(pc := Applying(role, i + 1, updated || effect == Patched)))
  }

  // ----- One object -----

  lemma LookStep(v: View, pass: Pass, store: Store, role: Role, i: nat, updated: bool, reply: Reply)
    requires v.pass == Some(pass.(pc := Applying(role, i, updated))) && i < |pass.spec.Objects(role)|
    requires !reply.readOk || Compare(store, pass.spec.Objects(role)[i]) == Same
             || Compare(store, pass.spec.Objects(role)[i]) == Unreadable
    ensures var effect := ApplyOne(store, pass.spec.Objects(role)[i], reply).1;
            && PassStep(v, store, AnswerOf(reply)) == (v.(pass := Beyond(pass, role, i, updated, effect)), store)
            && ApplyOne(store, pass.spec.Objects(role)[i], reply).0 == store
  {
  }

  /** A create or a patch of the machine is the write of the apply pass. */
  lemma WriteRolls(v: View, pass: Pass, store: Store, role: Role, i: nat, updated: bool, kind: WriteKind, reply: Reply)
    requires v.pass.Some? && i < |pass.spec.Objects(role)|
    ensures var effect := if kind.Patch? then Patched else Created;
            var (s, e) := Write(store, pass.spec.Objects(role)[i], reply, effect);
            var (w, t) := WriteStep(v, pass, store, role, i, updated, kind, AnswerOf(reply));
            t == s && Rolled(v, w, Beyond(pass, role, i, updated, e))
  {
  }

  lemma CreateWrites(v: View, pass: Pass, store: Store, role: Role, i: nat, updated: bool, reply: Reply)
    requires v.pass == Some(pass.(pc := Applying(role, i, updated))) && i < |pass.spec.Objects(role)|
    requires reply.readOk && Compare(store, pass.spec.Objects(role)[i]) == Absent
    ensures PassStep(v, store, AnswerOf(reply))
         == WriteStep(v, pass.(pc := Applying(role, i, updated)), store, role, i, updated, Creation, AnswerOf(reply))
  {
  }

  lemma CreateStep(v: View, pass: Pass, store: Store, role: Role, i: nat, updated: bool, reply: Reply)
    requires v.pass == Some(pass.(pc := Applying(role, i, updated))) && i < |pass.spec.Objects(role)|
    requires reply.readOk && Compare(store, pass.spec.Objects(role)[i]) == Absent
    ensures var (s, effect) := ApplyOne(store, pass.spec.Objects(role)[i], reply);
            var (w, t) := PassStep(v, store, AnswerOf(reply));
            t == s && Rolled(v, w, Beyond(pass, role, i, updated, effect))
  {
    CreateWrites(v, pass, store, role, i, updated, reply);
    WriteRolls(v, pass.(pc := Applying(role, i, updated)), store, role, i, updated, Creation, reply);
  }

  lemma DifferStep(v: View, pass: Pass, store: Store, role: Role, i: nat, updated: bool, reply: Reply)
    requires v.pass == Some(pass.(pc := Applying(role, i, updated))) && i < |pass.spec.Objects(role)|
    requires reply.readOk && Compare(store, pass.spec.Objects(role)[i]) == Differs
    ensures var next := if role == Datanode && pass.spec.Objects(role)[i].IsStatefulSet() && pass.spec.failover
                        then Arming(i, updated) else Patching(role, i, updated, None);
            PassStep(v, store, AnswerOf(reply)) == (v.(pass := Some(pass.(pc := next))), store)
  {
  }

  lemma ArmingStep(v: View, pass: Pass, store: Store, i: nat, updated: bool, reply: Reply)
    requires v.pass == Some(pass.(pc := Arming(i, updated))) && i < |pass.spec.Objects(Datanode)|
    requires reply.readOk && pass.spec.Objects(Datanode)[i].key in store
    ensures var d := pass.spec.Objects(Datanode)[i];
            var compared := Some(Comparison(d.template, store[d.key].live.template));
            var (w, t) := PassStep(v, store, AnswerOf(reply));
            t == store && Rolled(v, w, Some(pass.(pc := Patching(Datanode, i, updated, compared))))
  {
  }

  lemma PatchWrites(
      v: View, pass: Pass, store: Store, role: Role, i: nat, updated: bool, compared: Option<Comparison>, reply: Reply)
    requires v.pass == Some(pass.(pc := Patching(role, i, updated, compared))) && i < |pass.spec.Objects(role)|
    requires pass.spec.Objects(role)[i].key in store
    ensures PassStep(v, store, AnswerOf(reply))
         == WriteStep(v, pass.(pc := Patching(role, i, updated, compared)), store, role, i, updated,
                      Patch(pass.spec.failover, compared), AnswerOf(reply))
  {
  }

  lemma PatchingStep(
      v: View, pass: Pass, store: Store, role: Role, i: nat, updated: bool, compared: Option<Comparison>, reply: Reply)
    requires v.pass == Some(pass.(pc := Patching(role, i, updated, compared))) && i < |pass.spec.Objects(role)|
    requires reply.readOk && Compare(store, pass.spec.Objects(role)[i]) == Differs
    ensures var (s, effect) := ApplyOne(store, pass.spec.Objects(role)[i], reply);
            var (w, t) := PassStep(v, store, AnswerOf(reply));
            t == s && Rolled(v, w, Beyond(pass, role, i, updated, effect))
  {
    var kind := Patch(pass.spec.failover, compared);
    PatchWrites(v, pass, store, role, i, updated, compared, reply);
    WriteRolls(v, pass.(pc := Patching(role, i, updated, compared)), store, role, i, updated, kind, reply);
  }

  lemma RolledTwice(u: View, v: View, w: View, a: Option<Pass>, b: Option<Pass>)
    requires Rolled(u, v, a) && Rolled(v, w, b)
    ensures Rolled(u, w, b)
  {
  }

  /** From a difference to its patch, by way of the decision on maintenance if there is one to make. */
  lemma ToPatching(p: Place, pass: Pass, role: Role, i: nat, updated: bool, reply: Reply)
    returns (q: Place, compared: Option<Comparison>)
    requires p.view.pass == Some(pass.(pc := Applying(role, i, updated))) && i < |pass.spec.Objects(role)|
    requires reply.readOk && Compare(p.store, pass.spec.Objects(role)[i]) == Differs
    ensures q.k == p.k && q.store == p.store
    ensures var d := pass.spec.Objects(role)[i];
            q.run + [Step(p.k, AnswerOf(reply))] == p.run + ObjectActions(p.k, p.store, pass.spec, role, d, reply)
    ensures Rolled(p.view, q.view, Some(pass.(pc := Patching(role, i, updated, compared))))
  {
    var a, d := AnswerOf(reply), pass.spec.Objects(role)[i];
    DifferStep(p.view, pass, p.store, role, i, updated, reply);
    q := Extended(p, Step(p.k, a));
    compared := None;
    if role == Datanode && d.IsStatefulSet() && pass.spec.failover {
      ArmingStep(q.view, pass, q.store, i, updated, reply);
      compared := Some(Comparison(d.template, p.store[d.key].live.template));
      q := Extended(q, Step(p.k, a));
    }
  }

  lemma ObjectDiffers(p: Place, pass: Pass, role: Role, i: nat, updated: bool, reply: Reply) returns (q: Place)
    requires p.view.pass == Some(pass.(pc := Applying(role, i, updated))) && i < |pass.spec.Objects(role)|
    requires reply.readOk && Compare(p.store, pass.spec.Objects(role)[i]) == Differs
    ensures q.k == p.k
    ensures q.run == p.run + ObjectActions(p.k, p.store, pass.spec, role, pass.spec.Objects(role)[i], reply)
    ensures var (s, effect) := ApplyOne(p.store, pass.spec.Objects(role)[i], reply);
            q.store == s && Rolled(p.view, q.view, Beyond(pass, role, i, updated, effect))
  {
    var r, compared := ToPatching(p, pass, role, i, updated, reply);
    PatchingStep(r.view, pass, r.store, role, i, updated, compared, reply);
    q := Extended(r, Step(p.k, AnswerOf(reply)));
    var effect := ApplyOne(p.store, pass.spec.Objects(role)[i], reply).1;
    RolledTwice(p.view, r.view, q.view, r.view.pass, Beyond(pass, role, i, updated, effect));
  }

  lemma OneObject(p: Place, pass: Pass, role: Role, i: nat, updated: bool, reply: Reply) returns (q: Place)
    requires p.view.pass == Some(pass.(pc := Applying(role, i, updated))) && i < |pass.spec.Objects(role)|
    ensures q.k == p.k
    ensures q.run == p.run + ObjectActions(p.k, p.store, pass.spec, role, pass.spec.Objects(role)[i], reply)
    ensures var (s, effect) := ApplyOne(p.store, pass.spec.Objects(role)[i], reply);
            q.store == s && Rolled(p.view, q.view, Beyond(pass, role, i, updated, effect))
  {
    if reply.readOk && Compare(p.store, pass.spec.Objects(role)[i]) == Differs {
      q := ObjectDiffers(p, pass, role, i, updated, reply);
    } else {
      if reply.readOk && Compare(p.store, pass.spec.Objects(role)[i]) == Absent {
        CreateStep(p.view, pass, p.store, role, i, updated, reply);
      } else {
        LookStep(p.view, pass, p.store, role, i, updated, reply);
      }
      q := Extended(p, Step(p.k, AnswerOf(reply)));
    }
  }

  // ----- The loop -----

  /** Where the loop ends, by the result of the apply pass. */
  function EndOf(pass: Pass, role: Role, result: Result): Option<Pass>
  {
    match result
    case Synced => Some(pass.(pc := Checking(role, 0, true)))
    case NotReady => Some(pass.(pc := Waiting))
    case Fault => None
  }

  lemma EndStep(v: View, pass: Pass, store: Store, role: Role, i: nat, updated: bool)
    requires v.pass == Some(pass.(pc := Applying(role, i, updated))) && i >= |pass.spec.Objects(role)|
    ensures PassStep(v, store, QUIET)
         == (v.(pass := EndOf(pass, role, if updated then NotReady else Synced)), store)
  {
  }

  lemma ApplyAllUnfolds(store: Store, ds: seq<Desired>, i: nat, replies: seq<Reply>, updated: bool)
    requires replies != [] && i + |replies| == |ds|
    ensures var (next, effect) := ApplyOne(store, ds[i], replies[0]);
            ApplyAll(store, ds[i..], replies, updated)
              == if effect == Stopped then (next, Fault)
                 else ApplyAll(next, ds[i + 1..], replies[1..], updated || effect == Patched)
  {
    assert ds[i..][0] == ds[i] && ds[i..][1..] == ds[i + 1..];
  }

  lemma LoopEnds(p: Place, pass: Pass, role: Role, updated: bool) returns (q: Place)
    requires p.view.pass == Some(pass.(pc := Applying(role, |pass.spec.Objects(role)|, updated)))
    ensures q.k == p.k && q.run == p.run + [Step(p.k, QUIET)] && q.store == p.store
    ensures Rolled(p.view, q.view, EndOf(pass, role, if updated then NotReady else Synced))
  {
    EndStep(p.view, pass, p.store, role, |pass.spec.Objects(role)|, updated);
    q := Extended(p, Step(p.k, QUIET));
  }

  /** From any object on, for all replies of the API server: same store, same result. */
  lemma {:induction false} LoopIsApplyAll(
      p: Place, pass: Pass, role: Role, i: nat, updated: bool, replies: seq<Reply>) returns (q: Place)
    requires p.view.pass == Some(pass.(pc := Applying(role, i, updated)))
    requires i + |replies| == |pass.spec.Objects(role)|
    ensures q.k == p.k && q.run == p.run + LoopActions(p.k, p.store, pass.spec, role, i, replies)
    ensures var (s, result) := ApplyAll(p.store, pass.spec.Objects(role)[i..], replies, updated);
            q.store == s && Rolled(p.view, q.view, EndOf(pass, role, result))
    decreases |replies|
  {
    var ds := pass.spec.Objects(role);
    if replies == [] {
      q := LoopEnds(p, pass, role, updated);
    } else {
      var effect := ApplyOne(p.store, ds[i], replies[0]).1;
      var r := OneObject(p, pass, role, i, updated, replies[0]);
      ApplyAllUnfolds(p.store, ds, i, replies, updated);
      q := r;
      if effect != Stopped {
        q := LoopIsApplyAll(r, pass, role, i + 1, updated || effect == Patched, replies[1..]);
        var result := ApplyAll(r.store, ds[i + 1..], replies[1..], updated || effect == Patched).1;
        RolledTwice(p.view, r.view, q.view, r.view.pass, EndOf(pass, role, result));
      }
    }
  }

  /**
   The apply step of a deployer, left alone, is one apply pass over its objects: for all replies, the run that goes on
   with the steps they make ends with the same store and the same result.
   */
  lemma ApplyStepIsApplyAll(p: Place, pass: Pass, role: Role, replies: seq<Reply>) returns (q: Place)
    requires p.view.pass == Some(pass.(pc := Applying(role, 0, false)))
    requires |replies| == |pass.spec.Objects(role)|
    ensures q.k == p.k && q.run == p.run + LoopActions(p.k, p.store, pass.spec, role, 0, replies)
    ensures var (s, result) := ApplyAll(p.store, pass.spec.Objects(role), replies, false);
            q.store == s && Rolled(p.view, q.view, EndOf(pass, role, result))
  {
    assert pass.spec.Objects(role)[0..] == pass.spec.Objects(role);
    q := LoopIsApplyAll(p, pass, role, 0, false, replies);
  }

  /** In such a run, too, what is stored without a readable annotation stays as it is, whoever wants it. */
  lemma LoopLeavesForeign(p: Place, pass: Pass, role: Role, replies: seq<Reply>, key: ObjectKey) returns (q: Place)
    requires p.view.pass == Some(pass.(pc := Applying(role, 0, false)))
    requires |replies| == |pass.spec.Objects(role)| && key in p.store && !p.store[key].applied.Parsed?
    ensures q.k == p.k && q.run == p.run + LoopActions(p.k, p.store, pass.spec, role, 0, replies)
    ensures key in q.store && q.store[key] == p.store[key]
  {
    q := ApplyStepIsApplyAll(p, pass, role, replies);
    ForeignIsLeftAlone(p.store, pass.spec.Objects(role), replies, false, key);
  }
}
