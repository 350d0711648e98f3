/** Preparation of the local benchmark directory (src/preparation.rs): the
    jar files are checked and copied into it, and the Java properties the
    nodes will read are set: user overrides first, then the fixed keys for
    paths, the process views and the partition count. */
module Preparation {
  import opened Errors
  import opened Remote
  import opened Connections
  import Command
  import Strings

  const BENCH_DIR := "benchmarker"

  /** A property: the properties file it lives in and its key. */
  datatype PropKey = PropKey(file: string, key: string)

  const DB_FILES_DIR := PropKey("vanilladb", "org.vanilladb.core.storage.file.FileMgr.DB_FILES_DIR")
  const OUTPUT_DIR := PropKey("vanillabench", "org.vanilladb.bench.StatisticMgr.OUTPUT_DIR")
  const SERVER_VIEW := PropKey("vanillacomm", "org.vanilladb.comm.view.ProcessView.SERVER_VIEW")
  const CLIENT_VIEW := PropKey("vanillacomm", "org.vanilladb.comm.view.ProcessView.CLIENT_VIEW")
  const STAND_ALONE_SEQUENCER := PropKey("vanillacomm", "org.vanilladb.comm.ProcessView.STAND_ALONE_SEQUENCER")
  const NUM_PARTITIONS := PropKey("elasql", "org.elasql.storage.metadata.PartitionMetaMgr.NUM_PARTITIONS")

  /** The properties of every file, updated in place. */
  class PropertiesFileMap {
    var props: map<PropKey, string>

    /** The map as read from the default properties files. */
    constructor (defaults: map<PropKey, string>)
      ensures props == defaults
    {
      props := defaults;
    }

    /** `set`: gives `key` of `file` the value `value`. */
    method Set(file: string, key: string, value: string)
      modifies this
      ensures props == old(props)[PropKey(file, key) := value]
    {
      props := props[PropKey(file, key) := value];
    }

    /** The parameter file's overrides, each written into the map. */
    method OverrideWith(overrides: map<PropKey, string>)
      modifies this
      ensures props == old(props) + overrides
    {
      props := props + overrides;
    }
  }

  /** A process view: each node's text, preceded by ", " when its id is not
      0. */
  function View(nodes: seq<ConnectionInfo>): string
  {
    if nodes == [] then ""
    else
      var last := nodes[|nodes| - 1];
      View(nodes[..|nodes| - 1]) + (if last.id > 0 then ", " else "") + last.text
  }

  /** The view-building loop: `push_str` of the separator and the node's
      text, node by node. */
  method BuildView(nodes: seq<ConnectionInfo>) returns (view: string)
    ensures view == View(nodes)
  {
    view := "";
    for i := 0 to |nodes|
      invariant view == View(nodes[..i])
    {
      if nodes[i].id > 0 {
        view := view + ", ";
      }
      view := view + nodes[i].text;
      assert nodes[..i + 1][..i] == nodes[..i];
    }
    assert nodes[..|nodes|] == nodes;
  }

  /** The texts of `nodes` joined with ", ". */
  function Join(texts: seq<string>): string
  {
    if |texts| == 0 then ""
    else if |texts| == 1 then texts[0]
    else texts[0] + ", " + Join(texts[1..])
  }

  /** The connection texts of `nodes`, in order. */
  function Texts(nodes: seq<ConnectionInfo>): (texts: seq<string>)
    ensures |texts| == |nodes|
    ensures forall i :: 0 <= i < |nodes| ==> texts[i] == nodes[i].text
  {
    if nodes == [] then [] else [nodes[0].text] + Texts(nodes[1..])
  }

  lemma {:induction false} JoinSnoc(texts: seq<string>, text: string)
    requires |texts| >= 1
    ensures Join(texts + [text]) == Join(texts) + ", " + text
    decreases |texts|
  {
    if |texts| == 1 {
      assert (texts + [text])[1..] == [text];
    } else {
      assert (texts + [text])[1..] == texts[1..] + [text];
      JoinSnoc(texts[1..], text);
    }
  }

  /** When the ids are 0, 1, 2, ... in list order, the view is the node
      texts joined with ", ". */
  lemma {:induction false} ViewOfDenseIds(nodes: seq<ConnectionInfo>)
    requires forall i :: 0 <= i < |nodes| ==> nodes[i].id == i
    ensures View(nodes) == Join(Texts(nodes))
    decreases |nodes|
  {
    if |nodes| == 1 {
      assert View(nodes) == View([]) + "" + nodes[0].text;
    } else if |nodes| > 1 {
      var init := nodes[..|nodes| - 1];
      ViewOfDenseIds(init);
      assert Texts(nodes) == Texts(init) + [nodes[|nodes| - 1].text];
      JoinSnoc(Texts(init), nodes[|nodes| - 1].text);
    }
  }

  /** The server view: the servers' view, then ", " and the sequencer when
      there is one. */
  function ServerView(sequencer: Option<ConnectionInfo>, servers: seq<ConnectionInfo>): string
  {
    View(servers) + (if sequencer.Some? then ", " + sequencer.value.text else "")
  }

  /** With no servers, the sequencer's entry still starts with the
      separator. */
  lemma SequencerAloneKeepsSeparator(sequencer: ConnectionInfo)
    ensures ServerView(Some(sequencer), []) == ", " + sequencer.text
  {
  }

  /** `set_paths`: the database and results directories under the remote
      working directory. */
  method SetPaths(m: PropertiesFileMap, workDir: string)
    modifies m
    ensures m.props == old(m.props)[DB_FILES_DIR := workDir + "/databases"][OUTPUT_DIR := workDir + "/results"]
  {
    m.Set(DB_FILES_DIR.file, DB_FILES_DIR.key, workDir + "/databases");
    m.Set(OUTPUT_DIR.file, OUTPUT_DIR.key, workDir + "/results");
  }

  function StandAloneValue(sequencer: Option<ConnectionInfo>): (value: string)
    ensures value == "true" <==> sequencer.Some?
    ensures value == "false" <==> sequencer.None?
  {
    if sequencer.Some? then "true" else "false"
  }

  /** `set_connection_properties`: the server view, the client view (which
      never lists the sequencer), and whether a stand-alone sequencer
      runs. */
  method SetConnectionProperties(m: PropertiesFileMap, sequencer: Option<ConnectionInfo>,
                                 servers: seq<ConnectionInfo>, clients: seq<ConnectionInfo>)
    modifies m
    ensures m.props == old(m.props)[SERVER_VIEW := ServerView(sequencer, servers)]
                                   [CLIENT_VIEW := View(clients)]
                                   [STAND_ALONE_SEQUENCER := StandAloneValue(sequencer)]
  {
    var serverView := BuildView(servers);
    if sequencer.Some? {
      serverView := serverView + ", ";
      serverView := serverView + sequencer.value.text;
    } else {
      assert serverView + "" == serverView;
    }
    assert serverView == ServerView(sequencer, servers);
    m.Set(SERVER_VIEW.file, SERVER_VIEW.key, serverView);
    var clientView := BuildView(clients);
    m.Set(CLIENT_VIEW.file, CLIENT_VIEW.key, clientView);
    if sequencer.Some? {
      m.Set(STAND_ALONE_SEQUENCER.file, STAND_ALONE_SEQUENCER.key, "true");
    } else {
      m.Set(STAND_ALONE_SEQUENCER.file, STAND_ALONE_SEQUENCER.key, "false");
    }
  }

  /** `set_elasql_properties`: one partition per server. */
  method SetElasqlProperties(m: PropertiesFileMap, serverCount: nat)
    modifies m
    ensures m.props == old(m.props)[NUM_PARTITIONS := Strings.Decimal(serverCount)]
  {
    m.Set(NUM_PARTITIONS.file, NUM_PARTITIONS.key, Strings.Decimal(serverCount));
  }

  /** The outcomes of the two remote steps of a copy, by the position of the
      call in the log: `command::ls` of the file (its output dropped) and
      `command::cp` of it into the benchmark directory. */
  datatype Copier = Copier(check: nat -> Result<()>, copy: nat -> Result<()>)

  /** The copier that asks the remote world. */
  function Connected(w: World): (c: Copier)
    ensures forall t: nat :: c.copy(t) == w.effect(t)
  {
    Copier((t: nat) => Discard(Ls(w, t, "")).result, (t: nat) => w.effect(t))
  }

  /** The check step is `command::ls`, whatever the file: its outcome does not
      depend on the path, only its logged call does. */
  lemma ConnectedCheckIsLs(w: World, t: nat, path: string)
    ensures Discard(Ls(w, t, path)) == Out(Connected(w).check(t), [Exec("ls", [path])])
    ensures Effect(w, t, LocalCopy(false, path, BENCH_DIR)) == Out(Connected(w).copy(t), [LocalCopy(false, path, BENCH_DIR)])
  {
  }

  /** The outcome of the `k`-th call of a copy that issues its first call at
      `t`: even calls are `ls`, odd calls the `cp` that follows. */
  function CopyStep(c: Copier, t: nat, k: nat): Result<()>
  {
    if k % 2 == 0 then c.check(t + k) else c.copy(t + k)
  }

  /** Every call of copying `paths`: for each file, `ls` then `cp`. */
  function CopyCalls(paths: seq<string>): (calls: seq<Call>)
    ensures |calls| == 2 * |paths|
  {
    if paths == [] then []
    else [Exec("ls", [paths[0]]), LocalCopy(false, paths[0], BENCH_DIR)] + CopyCalls(paths[1..])
  }

  /** Checks each file with `ls`, then copies it into the benchmark
      directory; the first failure stops it. */
  function CopyFiles(c: Copier, t: nat, paths: seq<string>): Out<()>
    decreases |paths|
  {
    if paths == [] then Out(Ok(()), [])
    else
      var check := Out(c.check(t), [Exec("ls", [paths[0]])]);
      if check.result.Err? then check
      else
        var copy := Out(c.copy(t + 1), [LocalCopy(false, paths[0], BENCH_DIR)]);
        if copy.result.Err? then Out(copy.result, check.calls + copy.calls)
        else
          var rest := CopyFiles(c, t + 2, paths[1..]);
          Out(rest.result, check.calls + copy.calls + rest.calls)
  }

  lemma CopyStepShift(c: Copier, t: nat, k: nat)
    ensures CopyStep(c, t + 2, k) == CopyStep(c, t, k + 2)
  {
    assert (k + 2) % 2 == k % 2;
  }

  /** The copy issues the calls of `CopyCalls` in order, and stops early
      exactly when it fails. */
  lemma {:induction false} CopyFilesCallsArePrefix(c: Copier, t: nat, paths: seq<string>)
    ensures var o := CopyFiles(c, t, paths);
      && |o.calls| <= 2 * |paths|
      && o.calls == CopyCalls(paths)[..|o.calls|]
      && (o.result.Ok? ==> |o.calls| == 2 * |paths|)
      && (o.result.Err? ==> |o.calls| >= 1)
    decreases |paths|
  {
    if paths != [] {
      var o := CopyFiles(c, t, paths);
      var head := [Exec("ls", [paths[0]]), LocalCopy(false, paths[0], BENCH_DIR)];
      assert CopyCalls(paths) == head + CopyCalls(paths[1..]);
      if c.check(t).Ok? && c.copy(t + 1).Ok? {
        var rest := CopyFiles(c, t + 2, paths[1..]);
        CopyFilesCallsArePrefix(c, t + 2, paths[1..]);
        assert o.calls == head + rest.calls;
      }
    }
  }

  /** One file of a copy: the check, the copy, or the rest. */
  lemma CopyFilesUnfolds(c: Copier, t: nat, paths: seq<string>)
    requires paths != []
    ensures var o := CopyFiles(c, t, paths);
      && (CopyStep(c, t, 0).Err? ==> o.result == CopyStep(c, t, 0) && |o.calls| == 1)
      && (CopyStep(c, t, 0).Ok? && CopyStep(c, t, 1).Err? ==> o.result == CopyStep(c, t, 1) && |o.calls| == 2)
      && (CopyStep(c, t, 0).Ok? && CopyStep(c, t, 1).Ok? ==>
            var rest := CopyFiles(c, t + 2, paths[1..]);
            o.result == rest.result && |o.calls| == 2 + |rest.calls|)
  {
    assert CopyStep(c, t, 1) == c.copy(t + 1);
  }

  /** A failed copy fails with the error of its last call, and every call
      before that one succeeded. */
  lemma {:induction false} CopyFilesFailsAtLastCall(c: Copier, t: nat, paths: seq<string>)
    ensures var o := CopyFiles(c, t, paths);
      o.result.Err? ==> |o.calls| >= 1 && o.result == CopyStep(c, t, |o.calls| - 1)
                        && forall k :: 0 <= k < |o.calls| - 1 ==> CopyStep(c, t, k).Ok?
    decreases |paths|
  {
    var o := CopyFiles(c, t, paths);
    if paths != [] && o.result.Err? {
      CopyFilesUnfolds(c, t, paths);
      if CopyStep(c, t, 0).Ok? && CopyStep(c, t, 1).Ok? {
        var rest := CopyFiles(c, t + 2, paths[1..]);
        CopyFilesFailsAtLastCall(c, t + 2, paths[1..]);
        CopyStepShift(c, t, |rest.calls| - 1);
        forall k | 2 <= k < |o.calls| - 1
          ensures CopyStep(c, t, k).Ok?
        {
          CopyStepShift(c, t, k - 2);
        }
      }
    }
  }

  /** The copy succeeds exactly when every one of its calls succeeds. */
  lemma {:induction false} CopyFilesSucceedsIffEveryCall(c: Copier, t: nat, paths: seq<string>)
    ensures CopyFiles(c, t, paths).result.Ok?
        <==> forall k :: 0 <= k < 2 * |paths| ==> CopyStep(c, t, k).Ok?
    decreases |paths|
  {
    var o := CopyFiles(c, t, paths);
    if paths != [] {
      CopyFilesUnfolds(c, t, paths);
      if CopyStep(c, t, 0).Ok? && CopyStep(c, t, 1).Ok? {
        CopyFilesSucceedsIffEveryCall(c, t + 2, paths[1..]);
        forall k | 2 <= k < 2 * |paths|
          ensures CopyStep(c, t, k) == CopyStep(c, t + 2, k - 2)
        {
          CopyStepShift(c, t, k - 2);
        }
        if !o.result.Ok? {
          var k :| 0 <= k < 2 * |paths[1..]| && !CopyStep(c, t + 2, k).Ok?;
          CopyStepShift(c, t, k);
        }
      }
    }
  }

  /** The copy loop: `for` each file, `ls` it and `cp` it, returning the
      first error. */
  method CopyEach(c: Copier, t: nat, paths: seq<string>) returns (o: Out<()>)
    ensures o == CopyFiles(c, t, paths)
  {
    var calls: seq<Call> := [];
    var clock := t;
    var todo := paths;
    while todo != []
      invariant CopyFiles(c, t, paths) == Out(CopyFiles(c, clock, todo).result, calls + CopyFiles(c, clock, todo).calls)
      decreases |todo|
    {
      var check := Out(c.check(clock), [Exec("ls", [todo[0]])]);
      if check.result.Err? {
        return Out(check.result, calls + check.calls);
      }
      var copy := Out(c.copy(clock + 1), [LocalCopy(false, todo[0], BENCH_DIR)]);
      if copy.result.Err? {
        return Out(copy.result, calls + (check.calls + copy.calls));
      }
      calls := calls + (check.calls + copy.calls);
      clock := clock + 2;
      todo := todo[1..];
    }
    o := Out(Ok(()), calls);
  }

  /** The jar files, in the order they are handled. */
  function JarPaths(dirName: string): seq<string>
  {
    ["jars/" + dirName + "/server.jar", "jars/" + dirName + "/client.jar"]
  }

  /** The properties after preparation: defaults, then the overrides, then
      the fixed keys. */
  function Prepared(defaults: map<PropKey, string>, overrides: map<PropKey, string>, workDir: string,
                    sequencer: Option<ConnectionInfo>, servers: seq<ConnectionInfo>,
                    clients: seq<ConnectionInfo>): map<PropKey, string>
  {
    (defaults + overrides)
      [DB_FILES_DIR := workDir + "/databases"][OUTPUT_DIR := workDir + "/results"]
      [SERVER_VIEW := ServerView(sequencer, servers)][CLIENT_VIEW := View(clients)]
      [STAND_ALONE_SEQUENCER := StandAloneValue(sequencer)]
      [NUM_PARTITIONS := Strings.Decimal(|servers|)]
  }

  /** The fixed keys are six different properties: they differ in the file,
      the length of the key, or the first character after the common
      prefix. */
  lemma FixedKeysDiffer()
    ensures |FIXED_KEYS| == 6
  {
    assert SERVER_VIEW.key[36] != CLIENT_VIEW.key[36];
    assert |SERVER_VIEW.key| != |STAND_ALONE_SEQUENCER.key|;
    assert |CLIENT_VIEW.key| != |STAND_ALONE_SEQUENCER.key|;
    var files := [DB_FILES_DIR.file, OUTPUT_DIR.file, SERVER_VIEW.file, NUM_PARTITIONS.file];
    assert |files[0]| == 9 && |files[1]| == 12 && |files[2]| == 11 && |files[3]| == 6;
  }

  const FIXED_KEYS := {DB_FILES_DIR, OUTPUT_DIR, SERVER_VIEW, CLIENT_VIEW, STAND_ALONE_SEQUENCER, NUM_PARTITIONS}

  /** The fixed keys win over any override; every other key keeps the
      override if there is one, else the default. */
  lemma FixedKeysWin(defaults: map<PropKey, string>, overrides: map<PropKey, string>, workDir: string,
                     sequencer: Option<ConnectionInfo>, servers: seq<ConnectionInfo>,
                     clients: seq<ConnectionInfo>)
    ensures var p := Prepared(defaults, overrides, workDir, sequencer, servers, clients);
      && p[DB_FILES_DIR] == workDir + "/databases"
      && p[OUTPUT_DIR] == workDir + "/results"
      && p[SERVER_VIEW] == ServerView(sequencer, servers)
      && p[CLIENT_VIEW] == View(clients)
      && (p[STAND_ALONE_SEQUENCER] == "true" <==> sequencer.Some?)
      && p[NUM_PARTITIONS] == Strings.Decimal(|servers|)
      && (forall k :: k !in FIXED_KEYS ==>
            (k in p <==> k in defaults || k in overrides)
            && (k in overrides ==> p[k] == overrides[k])
            && (k in defaults && k !in overrides ==> p[k] == defaults[k]))
  {
    FixedKeysDiffer();
  }

  /** The partition count reads back as the number of servers. */
  lemma PartitionCountRoundTrip(defaults: map<PropKey, string>, overrides: map<PropKey, string>, workDir: string,
                                sequencer: Option<ConnectionInfo>, servers: seq<ConnectionInfo>,
                                clients: seq<ConnectionInfo>)
    requires |servers| < Strings.USIZE_LIMIT
    ensures Strings.ParseUsize(Prepared(defaults, overrides, workDir, sequencer, servers, clients)[NUM_PARTITIONS])
         == Strings.Parsed(|servers|)
  {
    Strings.DecimalRoundTrip(|servers|);
  }

  /** `prepare_bench_dir`: the jar directory parameter (its lookup is not part
      of this model, so it arrives as a result), the copy of the jars, then
      the properties in order: defaults, overrides, paths, connection
      properties, partition count. Writing the files out and building the VM
      arguments are not part of this model. */
  method PrepareBenchDir(w: World, t: nat, jarDir: Result<string>, defaults: map<PropKey, string>,
                         overrides: map<PropKey, string>, workDir: string,
                         sequencer: Option<ConnectionInfo>, servers: seq<ConnectionInfo>,
                         clients: seq<ConnectionInfo>)
    returns (o: Out<()>, props: map<PropKey, string>)
    ensures jarDir.Err? ==> o == Out(Err(jarDir.error), []) && props == map[]
    ensures jarDir.Ok? && CopyFiles(Connected(w), t, JarPaths(jarDir.value)).result.Err?
        ==> o == CopyFiles(Connected(w), t, JarPaths(jarDir.value)) && props == map[]
    ensures jarDir.Ok? && CopyFiles(Connected(w), t, JarPaths(jarDir.value)).result.Ok?
        ==> o == CopyFiles(Connected(w), t, JarPaths(jarDir.value))
            && props == Prepared(defaults, overrides, workDir, sequencer, servers, clients)
  {
    if jarDir.Err? {
      return Out(Err(jarDir.error), []), map[];
    }
    o := CopyEach(Connected(w), t, JarPaths(jarDir.value));
    if o.result.Err? {
      return o, map[];
    }
    var m := new PropertiesFileMap(defaults);
    m.OverrideWith(overrides);
    SetPaths(m, workDir);
    SetConnectionProperties(m, sequencer, servers, clients);
    SetElasqlProperties(m, |servers|);
    props := m.props;
  }
}
