/** server/src/config.ts: the defaults, the ordered search of the candidate
    configuration files, the shallow merge of the first file that parses,
    and the module-level configuration `reloadConfig` replaces. The
    filesystem and `JSON.parse` are parameters. */
module Config {
  import opened Text

  /** A parsed JSON value; an object is the map of its own properties. */
  datatype Json =
    | JNull
    | JBool(b: bool)
    | JNum(n: int)
    | JStr(s: string)
    | JArr(items: seq<Json>)
    | JObj(fields: map<string, Json>)

  /** A configuration object: its property names and values. */
  type Settings = map<string, Json>

  /** What `existsSync` and `readFileSync` see: a path that exists maps to
      its content, or to nothing when reading it fails. */
  type FileSystem = map<string, Option<string>>

  /** `JSON.parse`: the value, or nothing when it throws. */
  type Parser = string -> Option<Json>

  const SslCertPath: string := "/usr/local/etc/cloudbsd/admin-panel/ssl/cert.pem"
  const SslKeyPath: string := "/usr/local/etc/cloudbsd/admin-panel/ssl/key.pem"

  /** `DEFAULT_CONFIG` (config.ts:20-31); the database path, resolved from
      the module's own directory, is given. */
  function Defaults(dbPath: string): (r: Settings)
    ensures r.Keys == {"port", "servername", "secretKey", "dbPath", "demoMode", "ssl"}
    ensures r["port"] == JNum(3001) && r["demoMode"] == JBool(true)
  {
    map[
      "port" := JNum(3001),
      "servername" := JStr("localhost"),
      "secretKey" := JStr("your-secret-key-change-me"),
      "dbPath" := JStr(dbPath),
      "demoMode" := JBool(true),
      "ssl" := JObj(map["enabled" := JBool(false), "certPath" := JStr(SslCertPath), "keyPath" := JStr(SslKeyPath)])]
  }

  /** `path.join(dir, rel)` for a relative `rel`, without normalisation. */
  function JoinPath(dir: string, rel: string): string {
    if dir != [] && dir[|dir| - 1] == '/' then dir + rel else dir + "/" + rel
  }

  /** `CONFIG_PATHS` (config.ts:33-36) for a working directory. */
  function ConfigPaths(cwd: string): seq<string> {
    [JoinPath(cwd, "etc/config.json"), "/usr/local/etc/cloudbsd/admin-panel/config.json"]
  }

  /** The properties one value contributes to an object spread: an object
      its own properties, an array or a string its indices, anything else
      none. */
  function OwnProperties(v: Json): map<string, Json> {
    match v
    case JObj(m) => m
    case JArr(items) => Indexed(items)
    case JStr(s) => Indexed(seq(|s|, i requires 0 <= i < |s| => JStr([s[i]])))
    case _ => map[]
  }

  /** Index keys `"0"`, `"1"`, ... for the items. */
  function Indexed(items: seq<Json>): (r: map<string, Json>)
    ensures forall i :: 0 <= i < |items| ==> NatToString(i) in r && r[NatToString(i)] == items[i]
    decreases |items|
  {
    if items == [] then map[]
    else
      var n := |items| - 1;
      var r := Indexed(items[..n])[NatToString(n) := items[n]];
      assert forall i :: 0 <= i < n ==> NatToString(i) != NatToString(n) by {
        forall i | 0 <= i < n ensures NatToString(i) != NatToString(n) {
          if NatToString(i) == NatToString(n) {
            NatToStringInjective(i, n);
          }
        }
      }
      r
  }

  /** `{ ...config, ...userConfig }`: the user's properties win, every other
      property keeps its value, and nested objects are not merged. */
  function Merge(config: Settings, user: Json): (r: Settings)
    ensures r.Keys == config.Keys + OwnProperties(user).Keys
    ensures forall k :: k in OwnProperties(user) ==> r[k] == OwnProperties(user)[k]
    ensures forall k :: k in config && k !in OwnProperties(user) ==> r[k] == config[k]
  {
    config + OwnProperties(user)
  }

  /** Whether the candidate at `path` is taken: it exists, it can be read
      and its content parses. */
  predicate Usable(fs: FileSystem, parse: Parser, path: string) {
    path in fs && fs[path].Some? && parse(fs[path].value).Some?
  }

  /** What `loadConfig` returns: the defaults merged with the first usable
      candidate, or the defaults alone when there is none. */
  function LoadFrom(paths: seq<string>, fs: FileSystem, parse: Parser, defaults: Settings): (r: Settings)
    ensures defaults.Keys <= r.Keys
    ensures (forall j :: 0 <= j < |paths| ==> !Usable(fs, parse, paths[j])) ==> r == defaults
    decreases |paths|
  {
    if paths == [] then defaults
    else if Usable(fs, parse, paths[0]) then Merge(defaults, parse(fs[paths[0]].value).value)
    else LoadFrom(paths[1..], fs, parse, defaults)
  }

  /** The index of the first usable candidate, if any. */
  function FirstUsable(paths: seq<string>, fs: FileSystem, parse: Parser): (r: Option<nat>)
    ensures r.Some? ==> r.value < |paths| && Usable(fs, parse, paths[r.value])
    ensures r.Some? ==> forall j :: 0 <= j < r.value ==> !Usable(fs, parse, paths[j])
    ensures r.None? ==> forall j :: 0 <= j < |paths| ==> !Usable(fs, parse, paths[j])
    decreases |paths|
  {
    if paths == [] then None
    else if Usable(fs, parse, paths[0]) then Some(0)
    else
      var r := FirstUsable(paths[1..], fs, parse);
      assert forall j :: 1 <= j < |paths| ==> paths[j] == paths[1..][j - 1];
      if r.None? then None else Some(r.value + 1)
  }

  /** `LoadFrom` merges exactly the first usable candidate. */
  lemma {:induction false} LoadFromFirstUsable(paths: seq<string>, fs: FileSystem, parse: Parser, defaults: Settings)
    ensures var k := FirstUsable(paths, fs, parse);
      LoadFrom(paths, fs, parse, defaults) ==
        if k.None? then defaults else Merge(defaults, parse(fs[paths[k.value]].value).value)
    decreases |paths|
  {
    if paths != [] && !Usable(fs, parse, paths[0]) {
      LoadFromFirstUsable(paths[1..], fs, parse, defaults);
      var k := FirstUsable(paths[1..], fs, parse);
      if k.Some? {
        assert paths[k.value + 1] == paths[1..][k.value];
      }
    }
  }

  /** `loadConfig` (config.ts:38-57): the loop over the candidates that
      returns at the first one that exists, reads and parses. `source` is
      the index of the file the `Loaded configuration from` line names. */
  method LoadConfig(paths: seq<string>, fs: FileSystem, parse: Parser, defaults: Settings)
    returns (config: Settings, source: Option<nat>)
    ensures source == FirstUsable(paths, fs, parse)
    ensures config == LoadFrom(paths, fs, parse, defaults)
  {
    LoadFromFirstUsable(paths, fs, parse, defaults);
    config := defaults;
    for i := 0 to |paths|
      invariant forall j :: 0 <= j < i ==> !Usable(fs, parse, paths[j])
      invariant config == defaults
    {
      var path := paths[i];
      if path in fs {
        var content := fs[path];
        if content.Some? {
          var user := parse(content.value);
          if user.Some? {
            config := Merge(config, user.value);
            FirstUsableIs(paths, fs, parse, i);
            return config, Some(i);
          }
        }
      }
    }
    FirstUsableNone(paths, fs, parse);
    source := None;
  }

  lemma {:induction false} FirstUsableIs(paths: seq<string>, fs: FileSystem, parse: Parser, i: nat)
    requires i < |paths| && Usable(fs, parse, paths[i])
    requires forall j :: 0 <= j < i ==> !Usable(fs, parse, paths[j])
    ensures FirstUsable(paths, fs, parse) == Some(i)
    decreases i
  {
    if i > 0 {
      assert paths[1..][i - 1] == paths[i];
      assert forall j :: 0 <= j < i - 1 ==> paths[1..][j] == paths[j + 1];
      FirstUsableIs(paths[1..], fs, parse, i - 1);
    }
  }

  lemma {:induction false} FirstUsableNone(paths: seq<string>, fs: FileSystem, parse: Parser)
    requires forall j :: 0 <= j < |paths| ==> !Usable(fs, parse, paths[j])
    ensures FirstUsable(paths, fs, parse) == None
    decreases |paths|
  {
    if paths != [] {
      assert forall j :: 0 <= j < |paths[1..]| ==> paths[1..][j] == paths[j + 1];
      FirstUsableNone(paths[1..], fs, parse);
    }
  }

  /** With no candidate file present the defaults are returned: port 3001,
      demo mode on. */
  lemma NoFileGivesDefaults(cwd: string, fs: FileSystem, parse: Parser, dbPath: string)
    requires forall p :: p in ConfigPaths(cwd) ==> p !in fs
    ensures LoadFrom(ConfigPaths(cwd), fs, parse, Defaults(dbPath)) == Defaults(dbPath)
    ensures LoadFrom(ConfigPaths(cwd), fs, parse, Defaults(dbPath))["port"] == JNum(3001)
    ensures LoadFrom(ConfigPaths(cwd), fs, parse, Defaults(dbPath))["demoMode"] == JBool(true)
  {
    var paths := ConfigPaths(cwd);
    assert !Usable(fs, parse, paths[0]) && !Usable(fs, parse, paths[1]);
    assert paths[1..][0] == paths[1] && paths[1..][1..] == [];
    assert LoadFrom(paths[1..][1..], fs, parse, Defaults(dbPath)) == Defaults(dbPath);
    assert LoadFrom(paths[1..], fs, parse, Defaults(dbPath)) == Defaults(dbPath);
  }

  /** Once a candidate is usable, what the file system holds at later paths
      does not matter. */
  lemma LaterPathsIgnored(paths: seq<string>, fs: FileSystem, fs': FileSystem, parse: Parser, defaults: Settings, i: nat)
    requires i < |paths| && Usable(fs, parse, paths[i])
    requires forall j :: 0 <= j <= i ==> (paths[j] in fs <==> paths[j] in fs') && (paths[j] in fs ==> fs[paths[j]] == fs'[paths[j]])
    ensures LoadFrom(paths, fs, parse, defaults) == LoadFrom(paths, fs', parse, defaults)
  {
    var k := FirstUsable(paths, fs, parse);
    assert forall j :: 0 <= j <= i ==> (Usable(fs, parse, paths[j]) <==> Usable(fs', parse, paths[j]));
    FirstUsableIs(paths, fs, parse, k.value);
    FirstUsableIs(paths, fs', parse, k.value);
    LoadFromFirstUsable(paths, fs, parse, defaults);
    LoadFromFirstUsable(paths, fs', parse, defaults);
  }

  /** A file that exists but does not parse (or cannot be read) is passed
      over: the result is what the remaining candidates give. */
  lemma UnparsableSkipped(paths: seq<string>, fs: FileSystem, parse: Parser, defaults: Settings)
    requires paths != [] && paths[0] in fs
    requires fs[paths[0]].None? || parse(fs[paths[0]].value).None?
    ensures LoadFrom(paths, fs, parse, defaults) == LoadFrom(paths[1..], fs, parse, defaults)
  {
  }

  /** A file that parses to something without properties, such as `null`
      or `42`, still ends the search, with the defaults as the result. */
  lemma PropertylessFileWins(paths: seq<string>, fs: FileSystem, parse: Parser, defaults: Settings)
    requires paths != [] && paths[0] in fs && fs[paths[0]].Some?
    requires var v := parse(fs[paths[0]].value); v.Some? && (v.value.JNull? || v.value.JBool? || v.value.JNum?)
    ensures LoadFrom(paths, fs, parse, defaults) == defaults
  {
    assert Merge(defaults, parse(fs[paths[0]].value).value) == defaults;
  }

  /** The merge is shallow: a user `ssl` object replaces the default one
      whole, so an `ssl` without `certPath` leaves none, while the keys the
      user does not give keep their defaults. */
  lemma ShallowSsl(dbPath: string, user: map<string, Json>, ssl: map<string, Json>)
    requires "ssl" in user && user["ssl"] == JObj(ssl)
    ensures Merge(Defaults(dbPath), JObj(user))["ssl"] == JObj(ssl)
    ensures "certPath" !in ssl ==> var merged := Merge(Defaults(dbPath), JObj(user))["ssl"].fields; "certPath" !in merged
    ensures "port" !in user ==> Merge(Defaults(dbPath), JObj(user))["port"] == JNum(3001)
  {
  }

  /** A user file `{"port": 4000, "demoMode": false}` overrides those two
      and keeps the other defaults. */
  lemma UserOverrides(dbPath: string)
    ensures var r := Merge(Defaults(dbPath), JObj(map["port" := JNum(4000), "demoMode" := JBool(false)]));
      r["port"] == JNum(4000) && r["demoMode"] == JBool(false) && r["servername"] == JStr("localhost")
  {
  }

  /** The module state of config.ts: the binding `config` that
      `reloadConfig` reassigns, and the value `export default config` handed
      out at load time. Importers (index.ts:13, db.ts:6) hold that value, so
      a reload never reaches them. */
  class Current {
    var config: Settings
    const exported: Settings
    const cwd: string
    const dbPath: string

    /** `let config = loadConfig()` at module load. */
    constructor (cwd: string, dbPath: string, fs: FileSystem, parse: Parser)
      ensures this.cwd == cwd && this.dbPath == dbPath
      ensures config == LoadFrom(ConfigPaths(cwd), fs, parse, Defaults(dbPath))
      ensures exported == config
    {
      this.cwd := cwd;
      this.dbPath := dbPath;
      var c, _ := LoadConfig(ConfigPaths(cwd), fs, parse, Defaults(dbPath));
      config := c;
      exported := c;
    }

    /** `reloadConfig` (config.ts:61-64): a fresh load against the file
        system as it is now replaces the module binding and is returned;
        `exported` is a constant, so the value the importers hold stays the
        one of load time. */
    method Reload(fs: FileSystem, parse: Parser) returns (r: Settings)
      modifies this`config
      ensures r == config == LoadFrom(ConfigPaths(cwd), fs, parse, Defaults(dbPath))
    {
      var c, _ := LoadConfig(ConfigPaths(cwd), fs, parse, Defaults(dbPath));
      config := c;
      r := config;
    }
  }
}
