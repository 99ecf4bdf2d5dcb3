/**
 The tag tables of the configuration structs, the proof that what they write is
 prefix-free, and the two merges that a node's configuration goes through: the
 operator's, into the user's document, and the initializer's, into the result.
 */
module ConfigTables {
  import opened Text
  import opened Toml
  import opened Config

  type Tags = seq<Path>

  ghost predicate AllApart(tags: Tags)
  {
    forall i, j :: 0 <= i < j < |tags| ==> Apart(tags[i], tags[j])
  }

  function Singles(names: seq<string>): Tags
  {
    seq(|names|, i requires 0 <= i < |names| => [names[i]])
  }

  function Under(group: string, tags: Tags): Tags
  {
    seq(|tags|, i requires 0 <= i < |tags| => [group] + tags[i])
  }

  // ----- The tables -----

  const NODE_ID: Path := ["node_id"]
  const BIND_ADDR: Path := ["grpc", "bind_addr"]
  const SERVER_ADDR: Path := ["grpc", "server_addr"]
  const WAL_TLS: Path := ["wal", "tls"]

  const NODE: Tags := [NODE_ID, BIND_ADDR, SERVER_ADDR]

  const STORAGE_NAMES := [
    "type", "data_home", "access_key_id", "secret_access_key", "access_key_secret", "bucket", "root", "region",
    "endpoint", "scope", "credential", "container", "account_name", "account_key", "cache_capacity", "cache_path",
    "enable_virtual_host_style"]
  const STORAGE: Tags := Under("storage", Singles(STORAGE_NAMES))

  const WAL_NAMES := ["dir", "provider", "broker_endpoints"]
  const SASL_NAMES := ["type", "username", "password"]
  const TLS_NAMES := ["server_ca_cert_path", "client_cert_path", "client_key_path"]
  const WAL_HEAD: Tags := Under("wal", Singles(WAL_NAMES) + Under("sasl", Singles(SASL_NAMES)))
  const WAL_TAIL: Tags := Under("wal", Under("tls", Singles(TLS_NAMES)))

  const LOGGING_NAMES := ["dir", "level", "log_format", "enable_file_logging", "max_log_files", "max_log_dir_size"]
  const TRACING_NAMES := ["enable_otlp_tracing", "otlp_endpoint", "otlp_headers", "otlp_export_protocol"]
  const LOGGING: Tags := Under("logging", Singles(LOGGING_NAMES))
  const TRACING: Tags :=
    Under("logging", Singles(TRACING_NAMES) + Under("tracing_sample_ratio", Singles(["default_ratio"])))

  /** A struct whose tagged fields take their values from `v`. */
  function Struct(tags: Tags, v: Path -> Value): seq<Field>
  {
    seq(|tags|, i requires 0 <= i < |tags| => Tagged(tags[i], v(tags[i])))
  }

  /** DatanodeConfig, with its embedded structs; the last field is the untagged input. */
  function DatanodeFields(v: Path -> Value): seq<Field>
  {
    Struct(NODE, v) + [Inline(Struct(STORAGE, v)), Inline(Struct(WAL_HEAD + [WAL_TLS] + WAL_TAIL, v)),
                       Inline(Struct(LOGGING, v)), Inline(Struct(TRACING, v)), Untagged]
  }

  /** FlownodeConfig. */
  function FlownodeFields(v: Path -> Value): seq<Field>
  {
    Struct(NODE, v) + [Inline(Struct(LOGGING, v)), Inline(Struct(TRACING, v)), Untagged]
  }

  const DATANODE_TAGS: Tags := NODE + (STORAGE + ((WAL_HEAD + WAL_TAIL) + (LOGGING + TRACING)))
  const FLOWNODE_TAGS: Tags := NODE + (LOGGING + TRACING)

  // ----- Kafka: the one tag that is a prefix of others is never written -----

  datatype Sasl = Sasl(kind: string, username: string, password: string, usesSecret: bool)
  datatype Tls = Tls(serverCaCertPath: string, clientCertPath: string, clientKeyPath: string)
  datatype Kafka = Kafka(endpoints: seq<string>, sasl: Option<Sasl>, tls: Option<Tls>)

  class WalConfig {
    var provider: Option<string>
    var brokerEndpoints: seq<string>
    var saslType: Option<string>
    var saslUsername: Option<string>
    var saslPassword: Option<string>
    var tls: Option<map<string, string>>
    var tlsServerCa: Option<string>
    var tlsClientCert: Option<string>
    var tlsClientKey: Option<string>

    constructor ()
      ensures tls == None && saslType == None && saslUsername == None && saslPassword == None
      ensures tlsServerCa == None && tlsClientCert == None && tlsClientKey == None
    {
      provider, brokerEndpoints := None, [];
      saslType, saslUsername, saslPassword := None, None, None;
      tls, tlsServerCa, tlsClientCert, tlsClientKey := None, None, None, None;
    }

    /** `secret` is what the referenced secret holds, None if it cannot be read. */
    method ConfigureKafka(kafka: Kafka, secret: Option<(string, string)>) returns (ok: bool)
      requires tls == None
      modifies this
      ensures ok <==> !(kafka.sasl.Some? && kafka.sasl.value.usesSecret && secret.None?)
      ensures !MapValue(tls).Present?
      ensures provider == Some("kafka") && brokerEndpoints == kafka.endpoints
      ensures kafka.sasl.None? ==>
        saslType == old(saslType) && saslUsername == old(saslUsername) && saslPassword == old(saslPassword)
      ensures kafka.sasl.Some? ==>
        var sasl := kafka.sasl.value;
        saslType == if sasl.kind != "" then Some(sasl.kind) else old(saslType)
      ensures kafka.sasl.Some? && kafka.sasl.value.usesSecret && ok ==>
        saslUsername == Some(secret.value.0) && saslPassword == Some(secret.value.1)
      ensures kafka.sasl.Some? && !kafka.sasl.value.usesSecret ==>
        var sasl := kafka.sasl.value;
        && saslUsername == (if sasl.username != "" then Some(sasl.username) else old(saslUsername))
        && saslPassword == (if sasl.password != "" then Some(sasl.password) else old(saslPassword))
      ensures !ok || kafka.tls.None? ==>
        tlsServerCa == old(tlsServerCa) && tlsClientCert == old(tlsClientCert) && tlsClientKey == old(tlsClientKey)
      ensures ok && kafka.tls.Some? ==>
        var t := kafka.tls.value;
        && tlsServerCa == (if t.serverCaCertPath != "" then Some(t.serverCaCertPath) else old(tlsServerCa))
        && tlsClientCert == (if t.clientCertPath != "" then Some(t.clientCertPath) else old(tlsClientCert))
        && tlsClientKey == (if t.clientKeyPath != "" then Some(t.clientKeyPath) else old(tlsClientKey))
    {
      provider := Some("kafka");
      brokerEndpoints := kafka.endpoints;
      if kafka.sasl.Some? {
        ok := ConfigureSasl(kafka.sasl.value, secret);
        if !ok {
          return;
        }
      }
      if kafka.tls.Some? {
        ConfigureTls(kafka.tls.value);
      }
      ok := true;
    }

    method ConfigureSasl(sasl: Sasl, secret: Option<(string, string)>) returns (ok: bool)
      modifies this`saslType, this`saslUsername, this`saslPassword
      ensures ok <==> !(sasl.usesSecret && secret.None?)
      ensures saslType == (if sasl.kind != "" then Some(sasl.kind) else old(saslType))
      ensures sasl.usesSecret && ok ==> saslUsername == Some(secret.value.0) && saslPassword == Some(secret.value.1)
      ensures !sasl.usesSecret ==>
        && saslUsername == (if sasl.username != "" then Some(sasl.username) else old(saslUsername))
        && saslPassword == (if sasl.password != "" then Some(sasl.password) else old(saslPassword))
    {
      if sasl.kind != "" { saslType := Some(sasl.kind); }
      if sasl.username != "" { saslUsername := Some(sasl.username); }
      if sasl.password != "" { saslPassword := Some(sasl.password); }
      if sasl.usesSecret {
        if secret.None? {
          return false;
        }
        saslUsername, saslPassword := Some(secret.value.0), Some(secret.value.1);
      }
      ok := true;
    }

    method ConfigureTls(t: Tls)
      modifies this`tls, this`tlsServerCa, this`tlsClientCert, this`tlsClientKey
      ensures tls == Some(map[])
      ensures tlsServerCa == (if t.serverCaCertPath != "" then Some(t.serverCaCertPath) else old(tlsServerCa))
      ensures tlsClientCert == (if t.clientCertPath != "" then Some(t.clientCertPath) else old(tlsClientCert))
      ensures tlsClientKey == (if t.clientKeyPath != "" then Some(t.clientKeyPath) else old(tlsClientKey))
    {
      tls := Some(map[]);
      if t.serverCaCertPath != "" { tlsServerCa := Some(t.serverCaCertPath); }
      if t.clientCertPath != "" { tlsClientCert := Some(t.clientCertPath); }
      if t.clientKeyPath != "" { tlsClientKey := Some(t.clientKeyPath); }
    }
  }

  /** How the merge reads a field of map type: only a non-empty map is written. */
  function MapValue(m: Option<map<string, string>>): Value
  {
    if m.Some? && m.value != map[] then Present(Table(map k | k in m.value :: Leaf(Words(m.value[k])))) else Empty
  }

  // ----- What a struct writes -----

  function SelectOne(tag: Path, v: Path -> Value): seq<Write>
  {
    if v(tag).Present? then [Write(tag, v(tag).node)] else []
  }

  function Select(tags: Tags, v: Path -> Value): seq<Write>
  {
    if tags == [] then [] else SelectOne(tags[0], v) + Select(tags[1..], v)
  }

  lemma SelectCons(tag: Path, rest: Tags, v: Path -> Value)
    ensures Select([tag] + rest, v) == SelectOne(tag, v) + Select(rest, v)
  {
    assert ([tag] + rest)[1..] == rest;
  }

  lemma {:induction false} SelectAppend(a: Tags, b: Tags, v: Path -> Value)
    ensures Select(a + b, v) == Select(a, v) + Select(b, v)
    decreases |a|
  {
    if a == [] {
      assert a + b == b;
    } else {
      var tag, rest := a[0], a[1..];
      SelectAppend(rest, b, v);
      SelectCons(tag, rest, v);
      SelectCons(tag, rest + b, v);
      assert a == [tag] + rest && a + b == [tag] + (rest + b);
    }
  }

  lemma {:induction false} SelectMembers(tags: Tags, v: Path -> Value, w: Write)
    ensures w in Select(tags, v) <==> w.path in tags && v(w.path) == Present(w.node)
    decreases |tags|
  {
    if tags != [] {
      SelectMembers(tags[1..], v, w);
      assert w.path in tags <==> w.path == tags[0] || w.path in tags[1..];
    }
  }

  lemma {:induction false} SelectPrefixFree(tags: Tags, v: Path -> Value)
    requires AllApart(tags)
    ensures PrefixFree(Select(tags, v))
    decreases |tags|
  {
    if tags != [] {
      SelectPrefixFree(tags[1..], v);
      var s, rest := Select(tags, v), Select(tags[1..], v);
      if v(tags[0]).Present? {
        assert s == [Write(tags[0], v(tags[0]).node)] + rest;
        forall i, j | 0 <= i < j < |s|
          ensures Apart(s[i].path, s[j].path)
        {
          if i == 0 {
            SelectMembers(tags[1..], v, s[j]);
            assert s[j] in rest;
            var n :| 0 <= n < |tags[1..]| && tags[1..][n] == s[j].path;
            assert Apart(tags[0], tags[n + 1]);
          } else {
            assert s[i] == rest[i - 1] && s[j] == rest[j - 1];
          }
        }
      }
    }
  }

  lemma WritesCons(f: Field, rest: seq<Field>)
    ensures Writes([f] + rest) == FieldWrites(f) + Writes(rest)
    ensures Supported([f] + rest) <==> FieldSupported(f) && Supported(rest)
  {
    assert ([f] + rest)[1..] == rest;
  }

  lemma {:induction false} WritesAppend(a: seq<Field>, b: seq<Field>)
    ensures Writes(a + b) == Writes(a) + Writes(b)
    ensures Supported(a) && Supported(b) ==> Supported(a + b)
    decreases |a|
  {
    if a == [] {
      assert a + b == b;
    } else {
      var f, rest := a[0], a[1..];
      WritesAppend(rest, b);
      WritesCons(f, rest);
      WritesCons(f, rest + b);
      assert a == [f] + rest && a + b == [f] + (rest + b);
    }
  }

  ghost predicate NoUnsupported(v: Path -> Value)
  {
    forall p: Path :: !v(p).Unsupported?
  }

  lemma {:induction false} StructWrites(tags: Tags, v: Path -> Value)
    requires NoUnsupported(v)
    ensures Writes(Struct(tags, v)) == Select(tags, v) && Supported(Struct(tags, v))
    decreases |tags|
  {
    if tags != [] {
      assert Struct(tags, v)[1..] == Struct(tags[1..], v);
      StructWrites(tags[1..], v);
    }
  }

  lemma InlineWrites(fs: seq<Field>, rest: seq<Field>)
    requires Supported(fs) && Supported(rest)
    ensures Writes([Inline(fs)] + rest) == Writes(fs) + Writes(rest) && Supported([Inline(fs)] + rest)
  {
    assert ([Inline(fs)] + rest)[1..] == rest;
  }

  lemma LoggingWrites(v: Path -> Value) returns (fields: seq<Field>)
    requires NoUnsupported(v)
    ensures fields == [Inline(Struct(LOGGING, v)), Inline(Struct(TRACING, v)), Untagged]
    ensures Writes(fields) == Select(LOGGING + TRACING, v) && Supported(fields)
  {
    var last: seq<Field> := [Untagged];
    assert last[1..] == [] && Writes(last) == [] && Supported(last);
    StructWrites(LOGGING, v);
    StructWrites(TRACING, v);
    InlineWrites(Struct(TRACING, v), last);
    InlineWrites(Struct(LOGGING, v), [Inline(Struct(TRACING, v))] + last);
    SelectAppend(LOGGING, TRACING, v);
    fields := [Inline(Struct(LOGGING, v))] + ([Inline(Struct(TRACING, v))] + last);
    assert Select(TRACING, v) + [] == Select(TRACING, v);
  }

  lemma FlownodeWrites(v: Path -> Value)
    requires NoUnsupported(v)
    ensures Writes(FlownodeFields(v)) == Select(FLOWNODE_TAGS, v) && Supported(FlownodeFields(v))
  {
    var logging := LoggingWrites(v);
    StructWrites(NODE, v);
    WritesAppend(Struct(NODE, v), logging);
    SelectAppend(NODE, LOGGING + TRACING, v);
  }

  /** A tag that is not written can be left out of a table. */
  lemma SelectWithout(head: Tags, tag: Path, tail: Tags, v: Path -> Value)
    requires !v(tag).Present?
    ensures Select(head + [tag] + tail, v) == Select(head + tail, v)
  {
    SelectAppend(head + [tag], tail, v);
    SelectAppend(head, [tag], v);
    SelectAppend(head, tail, v);
    assert [tag][1..] == [] && Select([tag], v) == [];
    assert Select(head, v) + [] == Select(head, v);
  }

  lemma WalWrites(v: Path -> Value) returns (fields: seq<Field>)
    requires NoUnsupported(v) && !v(WAL_TLS).Present?
    ensures fields == Struct(WAL_HEAD + [WAL_TLS] + WAL_TAIL, v)
    ensures Writes(fields) == Select(WAL_HEAD + WAL_TAIL, v) && Supported(fields)
  {
    StructWrites(WAL_HEAD + [WAL_TLS] + WAL_TAIL, v);
    SelectWithout(WAL_HEAD, WAL_TLS, WAL_TAIL, v);
    fields := Struct(WAL_HEAD + [WAL_TLS] + WAL_TAIL, v);
  }

  lemma DatanodeWrites(v: Path -> Value)
    requires NoUnsupported(v) && !v(WAL_TLS).Present?
    ensures Writes(DatanodeFields(v)) == Select(DATANODE_TAGS, v) && Supported(DatanodeFields(v))
  {
    var logging := LoggingWrites(v);
    var wal := WalWrites(v);
    InlineWrites(wal, logging);
    var tail := [Inline(wal)] + logging;
    SelectAppend(WAL_HEAD + WAL_TAIL, LOGGING + TRACING, v);
    StructWrites(STORAGE, v);
    InlineWrites(Struct(STORAGE, v), tail);
    SelectAppend(STORAGE, (WAL_HEAD + WAL_TAIL) + (LOGGING + TRACING), v);
    StructWrites(NODE, v);
    WritesAppend(Struct(NODE, v), [Inline(Struct(STORAGE, v))] + tail);
    SelectAppend(NODE, STORAGE + ((WAL_HEAD + WAL_TAIL) + (LOGGING + TRACING)), v);
    assert DatanodeFields(v) == Struct(NODE, v) + ([Inline(Struct(STORAGE, v))] + tail);
  }

  // ----- The tables are prefix-free -----

  predicate Distinct(names: seq<string>)
  {
    forall i, j :: 0 <= i < j < |names| ==> names[i] != names[j]
  }

  lemma SinglesApart(names: seq<string>)
    requires Distinct(names)
    ensures AllApart(Singles(names))
  {
  }

  lemma UnderApart(group: string, tags: Tags)
    requires AllApart(tags)
    ensures AllApart(Under(group, tags))
  {
    var u := Under(group, tags);
    forall i, j | 0 <= i < j < |u|
      ensures Apart(u[i], u[j])
    {
      assert u[i][1..] == tags[i] && u[j][1..] == tags[j];
    }
  }

  /** Two tables whose first keys never coincide are apart as a whole. */
  lemma AppendApart(a: Tags, b: Tags)
    requires AllApart(a) && AllApart(b)
    requires forall i, j :: 0 <= i < |a| && 0 <= j < |b| ==> a[i][0] != b[j][0]
    ensures AllApart(a + b)
  {
    forall i, j | 0 <= i < j < |a + b|
      ensures Apart((a + b)[i], (a + b)[j])
    {
      if i < |a| && j >= |a| {
        assert a[i][0] != b[j - |a|][0];
      }
    }
  }

  lemma StorageApart()
    ensures AllApart(STORAGE)
  {
    SinglesApart(STORAGE_NAMES);
    UnderApart("storage", Singles(STORAGE_NAMES));
  }

  lemma WalApart()
    ensures AllApart(WAL_HEAD + WAL_TAIL)
  {
    SinglesApart(WAL_NAMES);
    SinglesApart(SASL_NAMES);
    SinglesApart(TLS_NAMES);
    var sasl, tls := Under("sasl", Singles(SASL_NAMES)), Under("tls", Singles(TLS_NAMES));
    UnderApart("sasl", Singles(SASL_NAMES));
    UnderApart("tls", Singles(TLS_NAMES));
    HeadsDiffer(Singles(WAL_NAMES), "sasl", Singles(SASL_NAMES));
    AppendApart(Singles(WAL_NAMES), sasl);
    HeadsDiffer(Singles(WAL_NAMES), "tls", Singles(TLS_NAMES));
    var inner := (Singles(WAL_NAMES) + sasl) + tls;
    AppendApart(Singles(WAL_NAMES) + sasl, tls);
    UnderApart("wal", inner);
    assert Under("wal", inner) == WAL_HEAD + WAL_TAIL;
  }

  lemma HeadsDiffer(tags: Tags, group: string, subs: Tags)
    requires forall i :: 0 <= i < |tags| ==> tags[i][0] != group
    ensures forall i, j :: 0 <= i < |tags| && 0 <= j < |Under(group, subs)| ==> tags[i][0] != Under(group, subs)[j][0]
  {
  }

  const LOG_NAMES := LOGGING_NAMES + TRACING_NAMES

  lemma LogNamesDistinct()
    ensures Distinct(LOG_NAMES)
  {
  }

  lemma LoggingApart()
    ensures AllApart(LOGGING + TRACING)
  {
    LogNamesDistinct();
    SinglesApart(LOG_NAMES);
    var ratio := Singles(["default_ratio"]);
    UnderApart("tracing_sample_ratio", ratio);
    HeadsDiffer(Singles(LOG_NAMES), "tracing_sample_ratio", ratio);
    var inner := Singles(LOG_NAMES) + Under("tracing_sample_ratio", ratio);
    AppendApart(Singles(LOG_NAMES), Under("tracing_sample_ratio", ratio));
    UnderApart("logging", inner);
    assert Under("logging", inner) == LOGGING + TRACING;
  }

  lemma NodeApart()
    ensures AllApart(NODE)
  {
    assert BIND_ADDR[1..] == ["bind_addr"] && SERVER_ADDR[1..] == ["server_addr"];
    assert Apart(BIND_ADDR[1..], SERVER_ADDR[1..]);
  }

  /** Every table of a group starts with the group's key. */
  ghost predicate Headed(tags: Tags, group: string)
  {
    forall i :: 0 <= i < |tags| ==> tags[i][0] == group
  }

  lemma TablesApart()
    ensures AllApart(DATANODE_TAGS) && AllApart(FLOWNODE_TAGS)
  {
    NodeApart();
    StorageApart();
    WalApart();
    LoggingApart();
    var wal, logging := WAL_HEAD + WAL_TAIL, LOGGING + TRACING;
    assert Headed(STORAGE, "storage") && Headed(wal, "wal") && Headed(logging, "logging");
    AppendApart(wal, logging);
    AppendApart(STORAGE, wal + logging);
    AppendApart(NODE, STORAGE + (wal + logging));
    AppendApart(NODE, logging);
  }

  // ----- The two stages -----

  /** The initializer sets three fields and leaves every other pointer nil. */
  function InitializerValues(id: nat, bind: string, server: string): Path -> Value
  {
    p =>
      if p == NODE_ID then Present(Leaf(Number(id)))
      else if p == BIND_ADDR then Present(Leaf(Words(bind)))
      else if p == SERVER_ADDR then Present(Leaf(Words(server)))
      else Empty
  }

  predicate IsInitializerWrite(w: Write, id: nat, bind: string, server: string)
  {
    || w == Write(NODE_ID, Leaf(Number(id)))
    || w == Write(BIND_ADDR, Leaf(Words(bind)))
    || w == Write(SERVER_ADDR, Leaf(Words(server)))
  }

  /** The two kinds of node that the initializer serves. */
  datatype Kind = DatanodeKind | FlownodeKind

  function TableOf(kind: Kind): Tags
  {
    match kind case DatanodeKind => DATANODE_TAGS case FlownodeKind => FLOWNODE_TAGS
  }

  function Fields(kind: Kind, v: Path -> Value): seq<Field>
  {
    match kind case DatanodeKind => DatanodeFields(v) case FlownodeKind => FlownodeFields(v)
  }

  function InitializerFields(kind: Kind, id: nat, bind: string, server: string): seq<Field>
  {
    Fields(kind, InitializerValues(id, bind, server))
  }

  /** Both structs write what their flat tables select, and the general theorems about merging apply to them. */
  lemma KindWrites(kind: Kind, v: Path -> Value)
    requires NoUnsupported(v) && !v(WAL_TLS).Present?
    ensures var fields := Fields(kind, v);
      && Writes(fields) == Select(TableOf(kind), v) && Supported(fields)
      && PrefixFree(Writes(fields)) && AvoidsInline(Writes(fields))
  {
    DatanodeWrites(v);
    FlownodeWrites(v);
    TablesApart();
    SelectPrefixFree(TableOf(kind), v);
    TagsAvoidInline();
    forall w | w in Select(TableOf(kind), v)
      ensures w.path[0] != INLINE[0]
    {
      SelectMembers(TableOf(kind), v, w);
    }
  }

  /** No tag starts with the key by which embedded structs are looked up. */
  lemma TagsAvoidInline()
    ensures forall kind: Kind, tag: Path :: tag in TableOf(kind) ==> tag[0] != INLINE[0]
  {
    assert Headed(STORAGE, "storage") && Headed(WAL_HEAD + WAL_TAIL, "wal") && Headed(LOGGING + TRACING, "logging");
  }

  /** What stage two must make of a path, given the document of stage one. */
  function Finished(t: Tree, id: nat, bind: string, server: string, q: Path): Option<Atom>
  {
    if NODE_ID <= q then ValueIn(Leaf(Number(id)), q[1..])
    else if BIND_ADDR <= q then ValueIn(Leaf(Words(bind)), q[2..])
    else if SERVER_ADDR <= q then ValueIn(Leaf(Words(server)), q[2..])
    else ValueAt(t, q)
  }

  /** `grpc` is not a plain value, so that the two addresses can be written below it. */
  predicate GrpcIsTable(t: Tree)
  {
    "grpc" !in t || t["grpc"].Table?
  }

  lemma {:induction false} InitializerCovers(ws: seq<Write>, id: nat, bind: string, server: string, t: Tree, q: Path)
    requires forall w :: w in ws <==> IsInitializerWrite(w, id, bind, server)
    requires PrefixFree(ws)
    ensures (match Covering(ws, q) case Some(w) => ValueIn(w.node, q[|w.path|..]) case None => ValueAt(t, q))
         == Finished(t, id, bind, server, q)
  {
    assert |BIND_ADDR[1]| != |SERVER_ADDR[1]| && |NODE_ID[0]| != |BIND_ADDR[0]|;
    var c := Covering(ws, q);
    assert c.None? ==> !(NODE_ID <= q) && !(BIND_ADDR <= q) && !(SERVER_ADDR <= q) by {
      assert IsInitializerWrite(Write(NODE_ID, Leaf(Number(id))), id, bind, server);
      assert IsInitializerWrite(Write(BIND_ADDR, Leaf(Words(bind))), id, bind, server);
      assert IsInitializerWrite(Write(SERVER_ADDR, Leaf(Words(server))), id, bind, server);
    }
  }

  /** The initializer's merge sets exactly its three keys, for any document and for both kinds of node. */
  lemma InitializerMerge(t: Tree, kind: Kind, id: nat, bind: string, server: string, q: Path)
    requires GrpcIsTable(t)
    ensures Merge(t, InitializerFields(kind, id, bind, server), OperatorFirst).1
    ensures ValueAt(Merge(t, InitializerFields(kind, id, bind, server), OperatorFirst).0, q)
         == Finished(t, id, bind, server, q)
  {
    var v := InitializerValues(id, bind, server);
    KindWrites(kind, v);
    var ws := Select(TableOf(kind), v);
    InitializerWrites(TableOf(kind), id, bind, server);
    assert AllOpen(t, ws);
    MergePathwise(t, Fields(kind, v), OperatorFirst, q);
    EffectiveOperatorFirst(t, ws);
    InitializerCovers(ws, id, bind, server, t, q);
  }

  lemma InitializerWrites(tags: Tags, id: nat, bind: string, server: string)
    requires NODE <= tags
    ensures forall w :: w in Select(tags, InitializerValues(id, bind, server)) <==>
        IsInitializerWrite(w, id, bind, server)
  {
    var v := InitializerValues(id, bind, server);
    assert tags[0] == NODE_ID && tags[1] == BIND_ADDR && tags[2] == SERVER_ADDR;
    forall w
      ensures w in Select(tags, v) <==> IsInitializerWrite(w, id, bind, server)
    {
      SelectMembers(tags, v, w);
    }
  }

  lemma {:induction false} EffectiveOperatorFirst(t: Tree, ws: seq<Write>)
    ensures Effective(t, ws, OperatorFirst) == ws
    decreases |ws|
  {
    if ws != [] {
      EffectiveOperatorFirst(t, ws[1..]);
    }
  }

  lemma {:induction false} SetAllKeepsOpen(t: Tree, ws: seq<Write>, p: Path)
    requires Open(t, p) && forall w :: w in ws ==> Apart(w.path, p)
    ensures Open(SetAll(t, ws), p)
    decreases |ws|
  {
    if ws != [] {
      assert ws[0] in ws;
      SetKeepsOpen(t, ws[0].path, ws[0].node, p);
      SetAllKeepsOpen(Set(t, ws[0].path, ws[0].node), ws[1..], p);
    }
  }

  /**
   Two stages, for both kinds of node. Whatever the user injects and whichever strategy the operator merges
   with, the final document differs from the operator's only at the node id and the two gRPC addresses, which
   are the initializer's even if the user set them.
   */
  lemma TwoStages(user: Tree, kind: Kind, v: Path -> Value, strategy: Strategy, id: nat, bind: string,
      server: string, q: Path)
    requires NoUnsupported(v) && !v(WAL_TLS).Present?
    requires v(NODE_ID) == v(BIND_ADDR) == v(SERVER_ADDR) == Empty
    requires GrpcIsTable(user)
    ensures var first := Merge(user, Fields(kind, v), strategy);
            var second := Merge(first.0, InitializerFields(kind, id, bind, server), OperatorFirst);
            && first.1 && second.1
            && ValueAt(second.0, q) == Finished(first.0, id, bind, server, q)
  {
    var fields := Fields(kind, v);
    var t := Merge(user, fields, strategy).0;
    var ws := Writes(Reached(user, fields, strategy));
    KindWrites(kind, v);
    ReachedWrites(user, fields, strategy);
    MergeIsFold(user, fields, strategy);
    EvolvingHasIsOriginal(user, ws, strategy);
    EffectiveIsSublist(user, ws, strategy);
    forall w | w in Effective(user, ws, strategy)
      ensures Apart(w.path, BIND_ADDR)
    {
      ApartFromAddress(kind, v, w);
    }
    assert Open(user, BIND_ADDR);
    SetAllKeepsOpen(user, Effective(user, ws, strategy), BIND_ADDR);
    InitializerMerge(t, kind, id, bind, server, q);
  }

  /** The operator writes nothing above or below the address that the initializer sets. */
  lemma ApartFromAddress(kind: Kind, v: Path -> Value, w: Write)
    requires w in Select(TableOf(kind), v) && v(BIND_ADDR) == Empty
    ensures Apart(w.path, BIND_ADDR)
  {
    var tags := TableOf(kind);
    TablesApart();
    SelectMembers(tags, v, w);
    assert tags[1] == BIND_ADDR;
    var n :| 0 <= n < |tags| && tags[n] == w.path;
    assert n != 1;
    if n > 1 {
      ApartSymmetric(BIND_ADDR, w.path);
    }
  }
}
