/**
 The fill-if-empty merge that defaulting is built on. Go values are trees: a struct
 is the list of its fields, a pointer is nil or refers to a value that is merged in place.
 */
module Merging {

  datatype Scalar = Int(n: int) | Str(s: string) | Bool(b: bool)

  datatype Value =
    | Nil
    | Ref(target: Value)
    | Atom(scalar: Scalar)
    | Struct(fields: seq<Value>)
    | Slice(items: seq<Value>)
    | Dict(entries: map<string, string>)
    | IntOrString(content: IntOrStr)

  /** The type tag selects the half that counts; the other half is never written out. */
  datatype IntOrStr = Count(n: int) | Text(s: string)

  function IsZero(a: Scalar): bool
  {
    match a case Int(n) => n == 0 case Str(s) => s == "" case Bool(b) => !b
  }

  /** The custom rule for pointers to IntOrString: the type of the destination stays. */
  function Transform(dst: IntOrStr, src: IntOrStr): IntOrStr
  {
    match dst
    case Count(n) => if n == 0 && src.Count? then src else dst
    case Text(t) => if t == "" && src.Text? then src else dst
  }

  /** Without that rule IntOrString is a struct like any other, and the type Int is its zero. */
  function FillIntOrString(dst: IntOrStr, src: IntOrStr): IntOrStr
  {
    match dst
    case Count(n) => if n == 0 || src.Text? then src else dst
    case Text(t) => if t == "" && src.Text? then src else dst
  }

  function FillDict(dst: map<string, string>, src: map<string, string>): map<string, string>
  {
    map k | k in dst.Keys + src.Keys :: if k in dst && (dst[k] != "" || k !in src) then dst[k] else src[k]
  }

  /** `transform` says whether the merge was given the custom rule. A source of Nil stands for no default at all. */
  function Merge(dst: Value, src: Value, transform: bool): Value
    decreases dst
  {
    match dst
    case Nil => src
    case Ref(d) =>
      if !src.Ref? then dst
      else if transform && d.IntOrString? && src.target.IntOrString?
      then Ref(IntOrString(Transform(d.content, src.target.content)))
      else Ref(Merge(d, src.target, transform))
    case Atom(a) => if IsZero(a) && src.Atom? then src else dst
    case Struct(fs) =>
      if src.Struct? && |src.fields| == |fs|
      then Struct(seq(|fs|, i requires 0 <= i < |fs| => Merge(fs[i], src.fields[i], transform)))
      else dst
    case Slice(items) => if items == [] && src.Slice? then src else dst
    case Dict(d) => if src.Dict? then Dict(FillDict(d, src.entries)) else dst
    case IntOrString(c) => if src.IntOrString? then IntOrString(FillIntOrString(c, src.content)) else dst
  }

  // ----- Properties -----

  lemma {:induction false} SelfMerge(v: Value, transform: bool)
    ensures Merge(v, v, transform) == v
    decreases v
  {
    match v
    case Ref(t) => SelfMerge(t, transform);
    case Struct(fs) =>
      forall i | 0 <= i < |fs|
        ensures Merge(fs[i], fs[i], transform) == fs[i]
      {
        SelfMerge(fs[i], transform);
      }
      assert Merge(v, v, transform).fields == fs;
    case Dict(d) => assert FillDict(d, d) == d;
    case _ =>
  }

  /** Merging the same defaults again changes nothing. */
  lemma {:induction false} MergeIdempotent(dst: Value, src: Value, transform: bool)
    ensures Merge(Merge(dst, src, transform), src, transform) == Merge(dst, src, transform)
    decreases dst
  {
    var m := Merge(dst, src, transform);
    match dst
    case Nil => SelfMerge(src, transform);
    case Ref(d) =>
      if src.Ref? {
        MergeIdempotent(d, src.target, transform);
      }
    case Struct(fs) =>
      if src.Struct? && |src.fields| == |fs| {
        forall i | 0 <= i < |fs|
          ensures Merge(m.fields[i], src.fields[i], transform) == m.fields[i]
        {
          MergeIdempotent(fs[i], src.fields[i], transform);
        }
        assert Merge(m, src, transform).fields == m.fields;
      }
    case Dict(d) =>
      if src.Dict? {
        assert FillDict(FillDict(d, src.entries), src.entries) == FillDict(d, src.entries);
      }
    case _ =>
  }

  /** The same defaults, possibly with some of them left out. */
  predicate Fewer(some: Value, all: Value)
    decreases some
  {
    || some == all
    || some == Nil
    || (some.Ref? && all.Ref? && Fewer(some.target, all.target))
    || (some.Struct? && all.Struct? && |some.fields| == |all.fields|
        && forall i :: 0 <= i < |some.fields| ==> Fewer(some.fields[i], all.fields[i]))
  }

  /** What the defaults leave alone, fewer of them leave alone. */
  lemma {:induction false} FewerChangeNothing(v: Value, some: Value, all: Value, transform: bool)
    requires Merge(v, all, transform) == v && Fewer(some, all)
    ensures Merge(v, some, transform) == v
    decreases v
  {
    if some != all && some != Nil {
      match v
      case Ref(t) =>
        if some.Ref? && !(transform && t.IntOrString?) {
          FewerChangeNothing(t, some.target, all.target, transform);
        }
      case Struct(fs) =>
        if some.Struct? && |some.fields| == |fs| {
          forall i | 0 <= i < |fs|
            ensures Merge(fs[i], some.fields[i], transform) == fs[i]
          {
            assert Merge(v, all, transform).fields[i] == fs[i];
            FewerChangeNothing(fs[i], some.fields[i], all.fields[i], transform);
          }
          assert Merge(v, some, transform).fields == fs;
        }
      case _ =>
    } else if some == Nil {
      NilChangesNothing(v, transform);
    }
  }

  lemma NilChangesNothing(v: Value, transform: bool)
    ensures Merge(v, Nil, transform) == v
  {
  }

  /**
   Everything that was set is still there: non-zero scalars, non-empty slices, non-empty entries, non-nil
   pointers.
   */
  predicate Kept(before: Value, after: Value)
    decreases before
  {
    match before
    case Nil => true
    case Ref(t) => after.Ref? && Kept(t, after.target)
    case Atom(a) => IsZero(a) || after == before
    case Struct(fs) => after.Struct? && |after.fields| == |fs| && forall i :: 0 <= i < |fs| ==>
        Kept(fs[i], after.fields[i])
    case Slice(items) => items == [] || after == before
    case Dict(d) => after.Dict? && forall k :: k in d && d[k] != "" ==> k in after.entries && after.entries[k] == d[k]
    case IntOrString(c) => IsUnset(c) || after == before
  }

  predicate IsUnset(c: IntOrStr)
  {
    match c case Count(n) => n == 0 case Text(t) => t == ""
  }

  /** Somewhere a number meets a default of type String without the custom rule to protect it. */
  predicate Clashes(dst: Value, src: Value, transform: bool)
    decreases dst
  {
    match dst
    case Ref(d) => src.Ref? && !(transform && d.IntOrString? && src.target.IntOrString?)
        && Clashes(d, src.target, transform)
    case Struct(fs) =>
      src.Struct? && |src.fields| == |fs| && exists i :: 0 <= i < |fs| && Clashes(fs[i], src.fields[i], transform)
    case IntOrString(c) => src.IntOrString? && c.Count? && c.n != 0 && src.content.Text?
    case _ => false
  }

  lemma {:induction false} KeptSelf(v: Value)
    ensures Kept(v, v)
    decreases v
  {
    match v
    case Ref(t) => KeptSelf(t);
    case Struct(fs) =>
      forall i | 0 <= i < |fs|
        ensures Kept(fs[i], fs[i])
      {
        KeptSelf(fs[i]);
      }
    case _ =>
  }

  /** Exactly then an explicit setting is lost in a merge. */
  lemma {:induction false} MergeKeepsExactly(dst: Value, src: Value, transform: bool)
    ensures Kept(dst, Merge(dst, src, transform)) <==> !Clashes(dst, src, transform)
    decreases dst
  {
    match dst
    case Ref(d) =>
      if src.Ref? {
        MergeKeepsExactly(d, src.target, transform);
      } else {
        KeptSelf(dst);
      }
    case Struct(fs) =>
      if src.Struct? && |src.fields| == |fs| {
        forall i | 0 <= i < |fs|
          ensures Kept(fs[i], Merge(fs[i], src.fields[i], transform)) <==> !Clashes(fs[i], src.fields[i], transform)
        {
          MergeKeepsExactly(fs[i], src.fields[i], transform);
        }
        assert forall i :: 0 <= i < |fs| ==>
            Merge(dst, src, transform).fields[i] == Merge(fs[i], src.fields[i], transform);
      } else {
        KeptSelf(dst);
      }
    case _ =>
  }

  /** Defaults in which a String stands only directly behind a pointer, or nowhere. */
  predicate Harmless(src: Value, transform: bool)
  {
    match src
    case Ref(t) => (transform && t.IntOrString?) || Harmless(t, transform)
    case Struct(fs) => forall i :: 0 <= i < |fs| ==> Harmless(fs[i], transform)
    case IntOrString(c) => c.Count?
    case _ => true
  }

  lemma {:induction false} HarmlessNeverClash(dst: Value, src: Value, transform: bool)
    requires Harmless(src, transform)
    ensures !Clashes(dst, src, transform)
    decreases dst
  {
    match dst
    case Ref(d) =>
      if src.Ref? && Harmless(src.target, transform) {
        HarmlessNeverClash(d, src.target, transform);
      }
    case Struct(fs) =>
      if src.Struct? && |src.fields| == |fs| {
        forall i | 0 <= i < |fs|
          ensures !Clashes(fs[i], src.fields[i], transform)
        {
          HarmlessNeverClash(fs[i], src.fields[i], transform);
        }
      }
    case _ =>
  }
}
