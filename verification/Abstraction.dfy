/**
 How a full spec is seen by the protocol: a few flags, one of which says that defaulting would change nothing.
 Defaulting the full spec and then looking is looking and then setting the flags.
 */
module Abstraction {
  import opened Merging
  import D = Defaults
  import M = Machine
  import R = Resources

  const FAILOVER: nat := 6

  predicate HasFailover(meta: Value)
  {
    D.Field(meta, FAILOVER) == D.Flag(true)
  }

  /** `objects` is what the deployers generate once the defaults are in. */
  function Seen(spec: D.Spec, objects: map<M.Role, seq<R.Desired>>): M.Spec
    requires M.Meta in objects && objects[M.Meta] != []
  {
    CompleteHasMeta(spec);
    M.RawSpec(spec.meta != Nil, HasFailover(spec.meta), D.Defaulted(spec) == spec, objects)
  }

  lemma CompleteHasMeta(spec: D.Spec)
    ensures D.Defaulted(spec).meta != Nil
  {
  }

  lemma FailoverStays(meta: Value, d: Value)
    requires d.Ref? && d.target.Struct? && |d.target.fields| > FAILOVER && d.target.fields[FAILOVER] == D.Flag(false)
    ensures HasFailover(Merge(meta, d, true)) <==> HasFailover(meta)
  {
    D.FieldOfMerge(meta, d, FAILOVER, true);
  }

  /** The step that the protocol takes is the one that `SetDefaults` takes, so what is shown about runs holds for it. */
  lemma DefaultingIsSeen(spec: D.Spec, objects: map<M.Role, seq<R.Desired>>)
    requires M.Meta in objects && objects[M.Meta] != []
    ensures Seen(D.Defaulted(spec), objects) == M.Defaulted(Seen(spec, objects))
  {
    CompleteHasMeta(spec);
    D.Fixpoint(spec);
    FailoverStays(spec.meta, D.DefaultMeta(spec));
  }
}
