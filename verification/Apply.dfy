/**
 `DefaultDeployer.Apply`: make the store agree with a list of desired objects.
 Every API call can fail, and a write that reports a failure may still have
 taken effect. The object's live spec, which the server defaults, is arbitrary
 after each write.
 */
module Apply {
  import opened Resources

  datatype Outcome = Done | Failed | Unacknowledged

  /** How the API server answers for one object: the read, then the write if there is one. */
  datatype Reply = Reply(readOk: bool, write: Outcome, live: Live)

  /** nil, ErrSyncNotReady, or any other error. */
  datatype Result = Synced | NotReady | Fault

  datatype Effect = Kept | Created | Patched | Stopped

  function ApplyOne(store: Store, d: Desired, reply: Reply): (Store, Effect)
  {
    if !reply.readOk then (store, Stopped)
    else
      match Compare(store, d)
      case Unreadable => (store, Stopped)
      case Same => (store, Kept)
      case Absent => Write(store, d, reply, Created)
      case Differs => Write(store, d, reply, Patched)
  }

  function Write(store: Store, d: Desired, reply: Reply, effect: Effect): (Store, Effect)
  {
    match reply.write
    case Done => (Written(store, d, reply.live), effect)
    case Unacknowledged => (Written(store, d, reply.live), Stopped)
    case Failed => (store, Stopped)
  }

  /** The whole pass over the desired list, from a store in which `updated` says whether a patch was made. */
  function ApplyAll(store: Store, desired: seq<Desired>, replies: seq<Reply>, updated: bool): (Store, Result)
    requires |replies| == |desired|
    decreases |desired|
  {
    if desired == [] then (store, if updated then NotReady else Synced)
    else
      var (next, effect) := ApplyOne(store, desired[0], replies[0]);
      if effect == Stopped then (next, Fault)
      else ApplyAll(next, desired[1..], replies[1..], updated || effect == Patched)
  }

  /** The API server with the objects it stores, updated in place. */
  class ApiServer {
    var objects: Store

    constructor (objects: Store)
      ensures this.objects == objects
    {
      this.objects := objects;
    }

    method Submit(d: Desired, reply: Reply) returns (acknowledged: bool)
      modifies this
      ensures objects == (if reply.write == Failed then old(objects) else Written(old(objects), d, reply.live))
      ensures acknowledged == (reply.write == Done)
    {
      if reply.write != Failed {
        objects := Written(objects, d, reply.live);
      }
      acknowledged := reply.write == Done;
    }

    /** The loop of the source, with its flag and its early returns. */
    method ApplyObjects(desired: seq<Desired>, replies: seq<Reply>) returns (result: Result)
      requires |replies| == |desired|
      modifies this
      ensures (objects, result) == ApplyAll(old(objects), desired, replies, false)
    {
      var updateObject := false;
      for i := 0 to |desired|
        invariant ApplyAll(old(objects), desired, replies, false)
               == ApplyAll(objects, desired[i..], replies[i..], updateObject)
      {
        var newObject, reply := desired[i], replies[i];
        assert desired[i..][1..] == desired[i + 1..] && replies[i..][1..] == replies[i + 1..];
        if !reply.readOk {
          return Fault;
        }
        var finding := Compare(objects, newObject);
        if finding == Unreadable {
          return Fault;
        }
        if finding == Absent || finding == Differs {
          var acknowledged := Submit(newObject, reply);
          if !acknowledged {
            return Fault;
          }
          updateObject := updateObject || finding == Differs;
        }
      }
      result := if updateObject then NotReady else Synced;
    }
  }

  // ----- Vocabulary of the properties -----

  /** Every desired object is stored with the desired annotation and labels. */
  ghost predicate Settled(store: Store, desired: seq<Desired>)
  {
    forall d :: d in desired ==> IsStored(store, d)
  }

  /** Entries that share a key ask for the same thing. Distinct keys are the usual case. */
  ghost predicate Coherent(desired: seq<Desired>)
  {
    forall d, e :: d in desired && e in desired && d.key == e.key ==> d.applied == e.applied && d.labels == e.labels
  }

  ghost predicate Untouched(before: Store, after: Store, desired: seq<Desired>)
  {
    forall k :: (forall d :: d in desired ==> d.key != k) ==>
      (k in before <==> k in after) && (k in before && k in after ==> before[k] == after[k])
  }

  /** Others may change live specs and statuses at will, but not the annotation or the labels. */
  ghost predicate KeepsMetadata(before: Store, after: Store, desired: seq<Desired>)
  {
    forall d :: d in desired && d.key in before ==>
      d.key in after && after[d.key].applied == before[d.key].applied && after[d.key].labels == before[d.key].labels
  }

  predicate AllGood(replies: seq<Reply>)
  {
    forall i :: 0 <= i < |replies| ==> replies[i].readOk && replies[i].write == Done
  }

  // ----- Properties -----

  /** Whatever the outcome, only desired keys are written. */
  lemma {:induction false} TouchesOnlyDesired(store: Store, desired: seq<Desired>, replies: seq<Reply>, updated: bool)
    requires |replies| == |desired|
    ensures Untouched(store, ApplyAll(store, desired, replies, updated).0, desired)
    decreases |desired|
  {
    if desired != [] {
      var (next, effect) := ApplyOne(store, desired[0], replies[0]);
      if effect != Stopped {
        TouchesOnlyDesired(next, desired[1..], replies[1..], updated || effect == Patched);
      }
    }
  }

  /** A synced pass changed no object that was there, and left every desired one as desired. */
  lemma {:induction false} SyncedOnlyCreates(store: Store, desired: seq<Desired>, replies: seq<Reply>)
    requires |replies| == |desired|
    requires ApplyAll(store, desired, replies, false).1 == Synced
    ensures var after := ApplyAll(store, desired, replies, false).0;
            Settled(after, desired) && forall k :: k in store ==> k in after && after[k] == store[k]
    decreases |desired|
  {
    if desired != [] {
      var (next, effect) := ApplyOne(store, desired[0], replies[0]);
      if effect == Patched {
        OnceUpdatedNeverSynced(next, desired[1..], replies[1..]);
      }
      SyncedOnlyCreates(next, desired[1..], replies[1..]);
      assert forall d :: d in desired ==> d == desired[0] || d in desired[1..];
    }
  }

  lemma {:induction false} OnceUpdatedNeverSynced(store: Store, desired: seq<Desired>, replies: seq<Reply>)
    requires |replies| == |desired|
    ensures ApplyAll(store, desired, replies, true).1 != Synced
    decreases |desired|
  {
    if desired != [] {
      var (next, effect) := ApplyOne(store, desired[0], replies[0]);
      if effect != Stopped {
        OnceUpdatedNeverSynced(next, desired[1..], replies[1..]);
      }
    }
  }

  /** A desired object that agrees keeps agreeing while entries that ask the same of its key are applied. */
  lemma {:induction false} AgreementLasts(store: Store, d: Desired, desired: seq<Desired>, replies: seq<Reply>,
      updated: bool)
    requires |replies| == |desired|
    requires IsStored(store, d) && Coherent([d] + desired)
    ensures IsStored(ApplyAll(store, desired, replies, updated).0, d)
    decreases |desired|
  {
    if desired != [] {
      var (next, effect) := ApplyOne(store, desired[0], replies[0]);
      assert d in [d] + desired && desired[0] in [d] + desired;
      if effect != Stopped {
        assert forall e :: e in [d] + desired[1..] ==> e in [d] + desired;
        AgreementLasts(next, d, desired[1..], replies[1..], updated || effect == Patched);
      }
    }
  }

  /** Convergence: a pass that returns nil or only not-ready leaves every desired object as desired. */
  lemma {:induction false} Converges(store: Store, desired: seq<Desired>, replies: seq<Reply>, updated: bool)
    requires |replies| == |desired| && Coherent(desired)
    requires ApplyAll(store, desired, replies, updated).1 != Fault
    ensures Settled(ApplyAll(store, desired, replies, updated).0, desired)
    decreases |desired|
  {
    if desired != [] {
      var (next, effect) := ApplyOne(store, desired[0], replies[0]);
      assert [desired[0]] + desired[1..] == desired;
      AgreementLasts(next, desired[0], desired[1..], replies[1..], updated || effect == Patched);
      Converges(next, desired[1..], replies[1..], updated || effect == Patched);
      assert forall d :: d in desired ==> d == desired[0] || d in desired[1..];
    }
  }

  /** A settled store is left alone by every later pass, even a failing one. */
  lemma {:induction false} SettledIsQuiet(store: Store, desired: seq<Desired>, replies: seq<Reply>)
    requires |replies| == |desired| && Settled(store, desired)
    ensures var (after, result) := ApplyAll(store, desired, replies, false);
            after == store && result == if forall i :: 0 <= i < |replies| ==> replies[i].readOk then Synced else Fault
    decreases |desired|
  {
    if desired != [] {
      assert desired[0] in desired;
      if replies[0].readOk {
        SettledIsQuiet(store, desired[1..], replies[1..]);
        assert forall i :: 0 < i < |replies| ==> replies[i] == replies[1..][i - 1];
      }
    }
  }

  /**
   The operator does not fight the server: after one pass that did not fail, and
   whatever others then do to live specs, the next pass writes nothing.
   */
  lemma SecondPassWritesNothing(store: Store, desired: seq<Desired>, first: seq<Reply>, later: Store,
      second: seq<Reply>)
    requires |first| == |desired| && |second| == |desired| && Coherent(desired)
    requires ApplyAll(store, desired, first, false).1 != Fault
    requires KeepsMetadata(ApplyAll(store, desired, first, false).0, later, desired)
    ensures ApplyAll(later, desired, second, false).0 == later
    ensures ApplyAll(later, desired, second, false).1 != NotReady
  {
    Converges(store, desired, first, false);
    SettledIsQuiet(later, desired, second);
  }

  /**
   Coherence is exactly what settling needs. Two entries with one key and different
   content (two datanode groups with the same name, which validation lets through)
   are patched over each other in every pass: no pass over them ever returns nil.
   */
  lemma SettlesExactlyWhenCoherent(store: Store, desired: seq<Desired>, replies: seq<Reply>)
    requires |replies| == |desired|
    requires ApplyAll(store, desired, replies, false).1 != Fault
    ensures Settled(ApplyAll(store, desired, replies, false).0, desired) <==> Coherent(desired)
    ensures !Coherent(desired) ==> ApplyAll(store, desired, replies, false).1 == NotReady
  {
    var (after, result) := ApplyAll(store, desired, replies, false);
    if Coherent(desired) {
      Converges(store, desired, replies, false);
    }
    if result == Synced {
      SyncedOnlyCreates(store, desired, replies);
    }
    if Settled(after, desired) {
      SettledMeansCoherent(after, desired);
    }
  }

  lemma SettledMeansCoherent(store: Store, desired: seq<Desired>)
    requires Settled(store, desired)
    ensures Coherent(desired)
  {
    forall d, e | d in desired && e in desired && d.key == e.key
      ensures d.applied == e.applied && d.labels == e.labels
    {
      assert IsStored(store, d) && IsStored(store, e);
    }
  }

  /**
   With a healthy API server a pass fails exactly when an object that it wants is
   already stored without a readable last-applied annotation.
   */
  lemma {:induction false} FailsExactlyOnForeignObjects(store: Store, desired: seq<Desired>, replies: seq<Reply>,
      updated: bool)
    requires |replies| == |desired| && AllGood(replies)
    ensures ApplyAll(store, desired, replies, updated).1 == Fault
       <==> exists d :: d in desired && d.key in store && !store[d.key].applied.Parsed?
    decreases |desired|
  {
    if desired != [] {
      var (next, effect) := ApplyOne(store, desired[0], replies[0]);
      assert forall d :: d in desired <==> d == desired[0] || d in desired[1..];
      if effect != Stopped {
        FailsExactlyOnForeignObjects(next, desired[1..], replies[1..], updated || effect == Patched);
        assert forall d :: d in desired[1..] ==> (IsForeign(next, d) <==> IsForeign(store, d));
      }
    }
  }

  /** Whatever is answered, what is stored without a readable annotation stays as it is, whoever wants it. */
  lemma {:induction false} ForeignIsLeftAlone(store: Store, desired: seq<Desired>, replies: seq<Reply>, updated: bool,
      key: ObjectKey)
    requires |replies| == |desired| && key in store && !store[key].applied.Parsed?
    ensures var after := ApplyAll(store, desired, replies, updated).0; key in after && after[key] == store[key]
    decreases |desired|
  {
    if desired != [] {
      var (next, effect) := ApplyOne(store, desired[0], replies[0]);
      if effect != Stopped {
        ForeignIsLeftAlone(next, desired[1..], replies[1..], updated || effect == Patched, key);
      }
    }
  }

  /** An entry that is not patched leaves those that ask the same of its key, and all others, as different as before. */
  lemma OneLeavesDifferences(store: Store, d: Desired, reply: Reply, e: Desired)
    requires ApplyOne(store, d, reply).1 == Kept || ApplyOne(store, d, reply).1 == Created
    requires d.key == e.key ==> d.applied == e.applied && d.labels == e.labels
    ensures IsDifferent(ApplyOne(store, d, reply).0, e) <==> IsDifferent(store, e)
  {
  }

  ghost predicate NoneForeign(store: Store, desired: seq<Desired>)
  {
    forall d :: d in desired ==> !IsForeign(store, d)
  }

  ghost predicate SomeDiffers(store: Store, desired: seq<Desired>)
  {
    exists d :: d in desired && IsDifferent(store, d)
  }

  /**
   With a healthy API server and no foreign objects a pass returns not-ready exactly if it patches, and it
   patches exactly if some desired object is stored differently before the pass.
   */
  lemma {:induction false} NotReadyExactly(store: Store, desired: seq<Desired>, replies: seq<Reply>, updated: bool)
    requires |replies| == |desired| && AllGood(replies) && Coherent(desired) && NoneForeign(store, desired)
    ensures ApplyAll(store, desired, replies, updated).1
         == if updated || SomeDiffers(store, desired) then NotReady else Synced
    decreases |desired|
  {
    if desired != [] {
      var d, rest := desired[0], desired[1..];
      var (next, effect) := ApplyOne(store, d, replies[0]);
      assert forall e :: e in desired <==> e == d || e in rest;
      assert !IsForeign(store, d) && effect != Stopped;
      forall e | e in rest
        ensures !IsForeign(next, e)
        ensures effect != Patched ==> (IsDifferent(next, e) <==> IsDifferent(store, e))
      {
        if effect != Patched {
          OneLeavesDifferences(store, d, replies[0], e);
        }
      }
      assert forall i :: 0 <= i < |replies[1..]| ==> replies[1..][i] == replies[i + 1];
      NotReadyExactly(next, rest, replies[1..], updated || effect == Patched);
    }
  }
}
