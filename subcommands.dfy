/** The benchmark-directory preparation of the subcommands
    (src/subcommands/mod.rs): the same steps as src/preparation.rs, with the
    jar directory read from the basic parameters, paths joined as `PathBuf`s,
    and the server address written into the benchmarker's parameters. */
module Subcommands {
  import opened Errors
  import opened Remote
  import P = Preparation

  const SERVER_IP := P.PropKey("vanillabench", "org.vanilladb.bench.BenchmarkerParameters.SERVER_IP")
  const NO_JAR_DIR := "No \"jar.dir\" is provided in the parameter file"

  /** `PathBuf::push` on a Unix path: an absolute path replaces the base;
      otherwise a separator is added unless the base is empty or already
      ends with one. */
  function PathPush(base: string, path: string): (joined: string)
    ensures |path| > 0 && path[0] == '/' ==> joined == path
    ensures (|path| == 0 || path[0] != '/') ==> |joined| >= |path| && joined[|joined| - |path|..] == path
  {
    if |path| > 0 && path[0] == '/' then path
    else if base == [] then path
    else if base[|base| - 1] == '/' then base + path
    else base + "/" + path
  }

  /** A path with no trailing separator gets exactly one between it and a
      relative component. */
  lemma PathPushAddsOneSeparator(base: string, path: string)
    requires base != [] && base[|base| - 1] != '/'
    requires |path| > 0 && path[0] != '/'
    ensures PathPush(base, path) == base + "/" + path
  {
  }

  /** A base that already ends with a separator is not given a second one:
      the `PathBuf` join never writes "//" at the seam, where formatting
      "{}/{}" would. */
  lemma PathPushKeepsSingleSeparator(base: string, path: string)
    requires base != [] && base[|base| - 1] == '/'
    requires |path| > 0 && path[0] != '/'
    ensures PathPush(base, path) == base + path
    ensures PathPush(base, path) != base + "/" + path
  {
    assert |base + path| != |base + "/" + path|;
  }

  /** The jar files `jars/<dir>/server.jar` then `jars/<dir>/client.jar`, built
      as `PathBuf`s. */
  function JarPaths(dirName: string): (paths: seq<string>)
    ensures |paths| == 2
  {
    var dir := PathPush(PathPush("", "jars"), dirName);
    [PathPush(dir, "server.jar"), PathPush(dir, "client.jar")]
  }

  /** For a plain directory name both layouts agree. */
  lemma JarPathsAgreeWithFormat(dirName: string)
    requires |dirName| > 0 && dirName[0] != '/' && dirName[|dirName| - 1] != '/'
    ensures JarPaths(dirName) == P.JarPaths(dirName)
  {
    assert PathPush("", "jars") == "jars";
    PathPushAddsOneSeparator("jars", dirName);
    var dir := "jars/" + dirName;
    assert PathPush("jars", dirName) == dir;
    assert dir[|dir| - 1] == dirName[|dirName| - 1];
    PathPushAddsOneSeparator("jars/" + dirName, "server.jar");
    PathPushAddsOneSeparator("jars/" + dirName, "client.jar");
    assert "jars/" + dirName + "/" + "server.jar" == "jars/" + dirName + "/server.jar";
    assert "jars/" + dirName + "/" + "client.jar" == "jars/" + dirName + "/client.jar";
  }

  function DbPath(workDir: string): string
  {
    PathPush(PathPush("", workDir), "databases")
  }

  function ResultPath(workDir: string): string
  {
    PathPush(PathPush("", workDir), "results")
  }

  /** For a working directory with no trailing separator, the paths are the
      ones src/preparation.rs formats. */
  lemma PathsAgreeWithFormat(workDir: string)
    requires workDir != [] && workDir[|workDir| - 1] != '/'
    ensures DbPath(workDir) == workDir + "/databases"
    ensures ResultPath(workDir) == workDir + "/results"
  {
    assert PathPush("", workDir) == workDir;
    PathPushAddsOneSeparator(workDir, "databases");
    PathPushAddsOneSeparator(workDir, "results");
  }

  /** `set_paths`: the database and results directories under the remote
      working directory. */
  method SetPaths(m: P.PropertiesFileMap, workDir: string)
    modifies m
    ensures m.props == old(m.props)[P.DB_FILES_DIR := DbPath(workDir)][P.OUTPUT_DIR := ResultPath(workDir)]
  {
    m.Set(P.DB_FILES_DIR.file, P.DB_FILES_DIR.key, DbPath(workDir));
    m.Set(P.OUTPUT_DIR.file, P.OUTPUT_DIR.key, ResultPath(workDir));
  }

  /** The properties after preparation: defaults, then overrides, then the
      paths and the server address. */
  function Prepared(defaults: map<P.PropKey, string>, overrides: map<P.PropKey, string>,
                    workDir: string, serverIp: string): map<P.PropKey, string>
  {
    (defaults + overrides)[P.DB_FILES_DIR := DbPath(workDir)][P.OUTPUT_DIR := ResultPath(workDir)]
      [SERVER_IP := serverIp]
  }

  /** The configured server address and the paths win over any override;
      every other key keeps the override if there is one, else the
      default. */
  lemma ConfigWinsOverOverrides(defaults: map<P.PropKey, string>, overrides: map<P.PropKey, string>,
                                workDir: string, serverIp: string)
    ensures var p := Prepared(defaults, overrides, workDir, serverIp);
      && p[SERVER_IP] == serverIp
      && p[P.DB_FILES_DIR] == DbPath(workDir)
      && p[P.OUTPUT_DIR] == ResultPath(workDir)
      && (forall k :: k != SERVER_IP && k != P.DB_FILES_DIR && k != P.OUTPUT_DIR ==>
            (k in p <==> k in defaults || k in overrides)
            && (k in overrides ==> p[k] == overrides[k])
            && (k in defaults && k !in overrides ==> p[k] == defaults[k]))
  {
    assert |SERVER_IP.key| != |P.OUTPUT_DIR.key|;
    assert |SERVER_IP.file| != |P.DB_FILES_DIR.file|;
    assert |P.OUTPUT_DIR.file| != |P.DB_FILES_DIR.file|;
  }

  /** `prepare_bench_dir`: `jarDir` is the "jar.dir" basic parameter, if
      given. A missing one fails before anything is copied or read. Writing
      the files out and building the VM arguments are not part of this
      model. */
  method PrepareBenchDir(w: World, t: nat, jarDir: Option<string>, defaults: map<P.PropKey, string>,
                         overrides: map<P.PropKey, string>, workDir: string, serverIp: string)
    returns (o: Out<()>, props: map<P.PropKey, string>)
    ensures jarDir.None? ==> o == Out(Err(Message(NO_JAR_DIR)), []) && props == map[]
    ensures jarDir.Some? && P.CopyFiles(P.Connected(w), t, JarPaths(jarDir.value)).result.Err?
        ==> o == P.CopyFiles(P.Connected(w), t, JarPaths(jarDir.value)) && props == map[]
    ensures jarDir.Some? && P.CopyFiles(P.Connected(w), t, JarPaths(jarDir.value)).result.Ok?
        ==> o == P.CopyFiles(P.Connected(w), t, JarPaths(jarDir.value))
            && props == Prepared(defaults, overrides, workDir, serverIp)
  {
    if jarDir.None? {
      return Out(Err(Message(NO_JAR_DIR)), []), map[];
    }
    o := P.CopyEach(P.Connected(w), t, JarPaths(jarDir.value));
    if o.result.Err? {
      return o, map[];
    }
    var m := new P.PropertiesFileMap(defaults);
    m.OverrideWith(overrides);
    SetPaths(m, workDir);
    m.Set(SERVER_IP.file, SERVER_IP.key, serverIp);
    props := m.props;
  }
}
