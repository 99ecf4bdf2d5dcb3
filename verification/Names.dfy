/**
 Names that the operator derives from a cluster: resource names and the address
 of the cluster's metasrv. Everything that keeps clusters apart rests on these
 being injective, so that is what is proved.
 */
module Names {
  import opened Text

  /** A namespace is a DNS label, so it holds no dot; a cluster name may. */
  datatype RawKey = RawKey(namespace: string, name: string)

  type Key = k: RawKey | '.' !in k.namespace witness RawKey("default", "basic")

  const DATANODE := "datanode"
  const META := "meta"

  /** The resource name as a value: the non-empty parts joined by hyphens. */
  function ResourceName(name: string, kind: string, extras: seq<string>): string
  {
    if extras == [] then name + "-" + kind
    else
      var base := ResourceName(name, kind, extras[..|extras| - 1]);
      var extra := extras[|extras| - 1];
      if extra == "" then base else base + "-" + extra
  }

  /** The loop that appends one extra name at a time and skips the empty ones. */
  method BuildResourceName(name: string, kind: string, extras: seq<string>) returns (baseName: string)
    ensures baseName == ResourceName(name, kind, extras)
  {
    baseName := name + "-" + kind;
    for i := 0 to |extras|
      invariant baseName == ResourceName(name, kind, extras[..i])
    {
      assert extras[..i + 1][..i] == extras[..i];
      if extras[i] != "" {
        baseName := baseName + "-" + extras[i];
      }
    }
    assert extras[..|extras|] == extras;
  }

  /** The in-cluster host of the metasrv service. */
  function MetaHost(k: RawKey): string
  {
    ResourceName(k.name, META, []) + "." + k.namespace
  }

  function MetaUrl(k: RawKey, port: int): string
  {
    "http://" + MetaHost(k) + ":" + IntText(port)
  }

  // ----- Properties -----

  /** Two clusters whose metasrv share a host are the same cluster. */
  lemma MetaHostInjective(a: Key, b: Key)
    requires MetaHost(a) == MetaHost(b)
    ensures a == b
  {
    var x, y := a.name + "-" + META, b.name + "-" + META;
    assert MetaHost(a) == x + ['.'] + a.namespace;
    assert MetaHost(b) == y + ['.'] + b.namespace;
    LastSeparatorIsUnique(x, a.namespace, y, b.namespace, '.');
    assert a.name == x[..|x| - 5] && b.name == y[..|y| - 5];
  }

  /** A maintenance URL names one cluster, for every pair of ports. */
  lemma MetaUrlInjective(a: Key, p: int, b: Key, q: int)
    requires MetaUrl(a, p) == MetaUrl(b, q)
    ensures a == b && IntText(p) == IntText(q)
  {
    IntTextHasNo(p, ':');
    IntTextHasNo(q, ':');
    var x, y := "http://" + MetaHost(a), "http://" + MetaHost(b);
    assert MetaUrl(a, p) == x + [':'] + IntText(p);
    assert MetaUrl(b, q) == y + [':'] + IntText(q);
    LastSeparatorIsUnique(x, IntText(p), y, IntText(q), ':');
    assert MetaHost(a) == x[7..] && MetaHost(b) == y[7..];
    MetaHostInjective(a, b);
  }

  /** With a dot in a namespace two different clusters would share a metasrv. */
  lemma DottedNamespaceCollides()
    ensures MetaHost(RawKey("b-meta.c", "a")) == MetaHost(RawKey("c", "a-meta.b"))
  {
    calc {
      MetaHost(RawKey("b-meta.c", "a"));
      "a-meta" + "." + "b-meta.c";
      "a-meta.b-meta" + "." + "c";
      MetaHost(RawKey("c", "a-meta.b"));
    }
  }

  /** Within one cluster the resource name determines the group; the empty group is the ungrouped component. */
  lemma GroupNameInjective(cluster: string, kind: string, g: string, h: string)
    requires ResourceName(cluster, kind, [g]) == ResourceName(cluster, kind, [h])
    ensures g == h
  {
    var base := ResourceName(cluster, kind, []);
    assert [g][..0] == [] && [h][..0] == [];
    var x, y := if g == "" then "" else "-" + g, if h == "" then "" else "-" + h;
    assert ResourceName(cluster, kind, [g]) == base + x && ResourceName(cluster, kind, [h]) == base + y;
    assert x == (base + x)[|base|..] && y == (base + y)[|base|..];
    assert g == (if x == "" then "" else x[1..]) && h == (if y == "" then "" else y[1..]);
  }

  /** Across clusters they can collide: a group called `datanode` of `a` and the datanodes of `a-datanode`. */
  lemma ResourceNamesCollideAcrossClusters()
    ensures ResourceName("a", DATANODE, ["datanode"]) == ResourceName("a-datanode", DATANODE, [])
  {
    assert ["datanode"][..0] == [];
    assert ResourceName("a", DATANODE, ["datanode"]) == "a-datanode" + "-" + "datanode";
  }
}
