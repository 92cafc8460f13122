/**
 * The configuration tree of the bridge (BridgeConfig): defaults
 * deep-merged with the loaded file, dot-path reads and writes over nested
 * dictionaries, and the start-up validation.
 */
module Config {
  import opened Wrappers
  import opened Text

  /** A value parsed from YAML or JSON. */
  datatype Value =
    | Null
    | Bool(b: bool)
    | Int(i: int)
    | Float(f: real)
    | Str(s: string)
    | List(items: seq<Value>)
    | Dict(entries: map<string, Value>)

  /** A configuration dictionary. */
  type Tree = map<string, Value>

  /** Python truthiness: None, False, 0, 0.0, "", [] and {} are false. */
  predicate Truthy(v: Value) {
    match v
    case Null => false
    case Bool(b) => b
    case Int(i) => i != 0
    case Float(f) => f != 0.0
    case Str(s) => s != []
    case List(xs) => xs != []
    case Dict(m) => m != map[]
  }

  // ----- _merge_configs -----

  /**
   * _merge_configs: every key of either side; where both sides hold a
   * dictionary they are merged recursively, otherwise the override wins.
   */
  function Merge(base: Tree, override: Tree): (r: Tree)
    ensures r.Keys == base.Keys + override.Keys
    ensures forall k :: k in base && k !in override ==> r[k] == base[k]
    ensures forall k :: k in override && !(k in base && base[k].Dict? && override[k].Dict?) ==> r[k] == override[k]
    ensures forall k :: k in override && k in base && base[k].Dict? && override[k].Dict? ==>
              r[k] == Dict(Merge(base[k].entries, override[k].entries))
    decreases Dict(override)
  {
    map k | k in base.Keys + override.Keys ::
      if k !in override then base[k]
      else if k in base && base[k].Dict? && override[k].Dict? then
        Dict(Merge(base[k].entries, override[k].entries))
      else override[k]
  }

  /** Merging an empty override gives the base back. */
  lemma MergeEmpty(base: Tree)
    ensures Merge(base, map[]) == base
  {
  }

  /** Merging a configuration with itself gives it back. */
  lemma {:induction false} MergeIdempotent(t: Tree)
    ensures Merge(t, t) == t
    decreases Dict(t)
  {
    var r := Merge(t, t);
    forall k | k in t ensures r[k] == t[k] {
      if t[k].Dict? {
        MergeIdempotent(t[k].entries);
      }
    }
  }

  // ----- get -----

  /** The value reached by walking `path` through nested dictionaries, None when a step is impossible. */
  function Lookup(v: Value, path: seq<string>): Option<Value> {
    if path == [] then Some(v)
    else if v.Dict? && path[0] in v.entries then Lookup(v.entries[path[0]], path[1..])
    else None
  }

  /** The value at a dotted key, or None as get's default gives it. */
  function Setting(config: Tree, path: seq<string>): Value {
    Lookup(Dict(config), path).GetOr(Null)
  }

  /** Walking a longer path first walks its prefix. */
  lemma {:induction false} LookupAppend(v: Value, p: seq<string>, k: string)
    ensures Lookup(v, p + [k]) ==
      match Lookup(v, p)
      case None => None
      case Some(w) => if w.Dict? && k in w.entries then Some(w.entries[k]) else None
  {
    if p != [] {
      assert (p + [k])[0] == p[0] && (p + [k])[1..] == p[1..] + [k];
      if v.Dict? && p[0] in v.entries {
        LookupAppend(v.entries[p[0]], p[1..], k);
      }
    }
  }

  /**
   * get returns its default exactly when some segment is missing or some
   * intermediate value is not a dictionary.
   */
  lemma {:induction false} LookupFailsIff(v: Value, path: seq<string>)
    ensures Lookup(v, path).None? <==>
      exists j :: 0 <= j < |path| && Lookup(v, path[..j]).Some? &&
        var w := Lookup(v, path[..j]).value; !(w.Dict? && path[j] in w.entries)
  {
    if path != [] {
      var k := path[0];
      assert path[..0] == [];
      if v.Dict? && k in v.entries {
        var child := v.entries[k];
        LookupFailsIff(child, path[1..]);
        forall j | 1 <= j <= |path| ensures Lookup(v, path[..j]) == Lookup(child, path[1..][..j - 1]) {
          assert path[..j][0] == k && path[..j][1..] == path[1..][..j - 1];
        }
        if Lookup(v, path).None? {
          var j :| 0 <= j < |path| - 1 && Lookup(child, path[1..][..j]).Some? &&
            var w := Lookup(child, path[1..][..j]).value; !(w.Dict? && path[1..][j] in w.entries);
          assert Lookup(v, path[..j + 1]) == Lookup(child, path[1..][..j]);
        } else {
          forall j | 0 <= j < |path| && Lookup(v, path[..j]).Some?
            ensures var w := Lookup(v, path[..j]).value; w.Dict? && path[j] in w.entries
          {
            if j > 0 {
              assert path[1..][j - 1] == path[j];
            }
          }
        }
      }
    }
  }

  // ----- set -----

  /** One step of set's walk: the dictionary under k, a new {} when k is missing, None when k holds a non-dictionary. */
  function Step(m: Tree, k: string): Option<Tree> {
    if k !in m then Some(map[])
    else if m[k].Dict? then Some(m[k].entries)
    else None
  }

  /**
   * set(path, v) on the dictionary m: None where Python raises TypeError
   * (an existing intermediate value is not a dictionary), otherwise the new
   * dictionary.
   */
  function SetPath(m: Tree, path: seq<string>, v: Value): Option<Tree>
    requires |path| >= 1
    decreases |path|
  {
    if |path| == 1 then Some(m[path[0] := v])
    else
      match Step(m, path[0])
      case None => None
      case Some(child) =>
        match SetPath(child, path[1..], v)
        case None => None
        case Some(child') => Some(m[path[0] := Dict(child')])
  }

  /** After a successful set, get along the same path returns the value written. */
  lemma {:induction false} GetAfterSet(m: Tree, path: seq<string>, v: Value)
    requires |path| >= 1 && SetPath(m, path, v).Some?
    ensures Lookup(Dict(SetPath(m, path, v).value), path) == Some(v)
    decreases |path|
  {
    if |path| > 1 {
      GetAfterSet(Step(m, path[0]).value, path[1..], v);
    }
  }

  /** Two paths diverge when they differ at some position both have. */
  predicate Diverge(p: seq<string>, q: seq<string>) {
    exists i :: 0 <= i < |p| && i < |q| && p[i] != q[i]
  }

  /** set changes nothing at a path that leaves the written path. */
  lemma {:induction false} SetLeavesOtherPaths(m: Tree, path: seq<string>, v: Value, q: seq<string>)
    requires |path| >= 1 && SetPath(m, path, v).Some?
    requires Diverge(path, q)
    ensures Lookup(Dict(SetPath(m, path, v).value), q) == Lookup(Dict(m), q)
    decreases |path|
  {
    var m' := SetPath(m, path, v).value;
    if q[0] == path[0] {
      var i :| 0 <= i < |path| && i < |q| && path[i] != q[i];
      assert i > 0 && path[1..][i - 1] != q[1..][i - 1];
      var child := Step(m, path[0]).value;
      SetLeavesOtherPaths(child, path[1..], v, q[1..]);
      if path[0] !in m {
        LookupEmpty(q[1..]);
      }
    }
  }

  /** Nothing can be looked up below an empty dictionary. */
  lemma LookupEmpty(q: seq<string>)
    requires |q| >= 1
    ensures Lookup(Dict(map[]), q) == None
  {
  }

  /** set fails (TypeError) iff some existing proper prefix of the path holds a non-dictionary. */
  lemma {:induction false} SetFailsIff(m: Tree, path: seq<string>, v: Value)
    requires |path| >= 1
    ensures SetPath(m, path, v).None? <==>
      exists j :: 0 < j < |path| && Lookup(Dict(m), path[..j]).Some? && !Lookup(Dict(m), path[..j]).value.Dict?
    decreases |path|
  {
    if |path| > 1 {
      var k := path[0];
      assert path[..1] == [k];
      if k !in m {
        SetNeverFailsOnEmpty(path[1..], v);
        forall j | 0 < j < |path| ensures Lookup(Dict(m), path[..j]).None? {
          assert path[..j][0] == k;
        }
      } else if m[k].Dict? {
        var child := m[k].entries;
        SetFailsIff(child, path[1..], v);
        forall j | 1 < j < |path| ensures Lookup(Dict(m), path[..j]) == Lookup(Dict(child), path[1..][..j - 1]) {
          assert path[..j][0] == k && path[..j][1..] == path[1..][..j - 1];
        }
        if SetPath(m, path, v).None? {
          var j :| 0 < j < |path| - 1 && Lookup(Dict(child), path[1..][..j]).Some? &&
            !Lookup(Dict(child), path[1..][..j]).value.Dict?;
          assert Lookup(Dict(m), path[..j + 1]) == Lookup(Dict(child), path[1..][..j]);
        }
      }
    }
  }

  /** Below a new {} every level is new, so set cannot fail there. */
  lemma {:induction false} SetNeverFailsOnEmpty(path: seq<string>, v: Value)
    requires |path| >= 1
    ensures SetPath(map[], path, v).Some?
  {
    if |path| > 1 {
      SetNeverFailsOnEmpty(path[1..], v);
    }
  }

  /** A failed walk: once some level holds a non-dictionary, set fails from every level above it. */
  lemma {:induction false} SetFailsAbove(levels: seq<Tree>, path: seq<string>, v: Value, i: nat, j: nat)
    requires i < |levels| && i < |path| - 1 && j <= i
    requires forall t :: 0 <= t < i ==> Step(levels[t], path[t]) == Some(levels[t + 1])
    requires Step(levels[i], path[i]).None?
    ensures SetPath(levels[j], path[j..], v).None?
    decreases i - j
  {
    if j < i {
      SetFailsAbove(levels, path, v, i, j + 1);
      assert path[j..][1..] == path[j + 1..];
    }
  }

  // ----- validate -----

  /** The warnings validate can produce, in the order it checks for them. */
  datatype Warning =
    | NoPorts
    | NoBroker
    | MissingDatabaseDir
    | InvalidWebPort(port: Value)
    | InvalidMetricsPort(port: Value)

  function Rank(w: Warning): nat {
    match w
    case NoPorts => 0
    case NoBroker => 1
    case MissingDatabaseDir => 2
    case InvalidWebPort(_) => 3
    case InvalidMetricsPort(_) => 4
  }

  /** isinstance(port, int) and 1 <= port <= 65535; a Python bool is an int, True being 1. */
  predicate ValidPort(v: Value) {
    match v
    case Int(p) => 1 <= p <= 65535
    case Bool(b) => b
    case _ => false
  }

  /** A two-segment dotted key splits into its two segments. */
  lemma SplitTwo(a: string, b: string)
    requires '.' !in a && '.' !in b
    ensures Split(a + "." + b) == [a, b]
  {
    assert Join([a, b]) == a + "." + b;
    SplitJoin([a, b]);
  }

  /** The warnings validate produces for `c`, in the order it checks for them. */
  function ValidationWarnings(c: Tree, dbDirMissing: bool): seq<Warning> {
    PortWarnings(c) + BrokerWarnings(c) + DatabaseWarnings(c, dbDirMissing)
    + WebWarnings(c) + MetricsWarnings(c)
  }

  /** No serial port configured and auto-detection off. */
  function PortWarnings(c: Tree): seq<Warning> {
    if !Truthy(Setting(c, ["bridge", "auto_detect"])) && !Truthy(Setting(c, ["bridge", "ports"])) then [NoPorts] else []
  }

  /** MQTT enabled without a broker. */
  function BrokerWarnings(c: Tree): seq<Warning> {
    if Truthy(Setting(c, ["mqtt", "enabled"])) && !Truthy(Setting(c, ["mqtt", "broker"])) then [NoBroker] else []
  }

  /** Database enabled with a path whose directory is missing. */
  function DatabaseWarnings(c: Tree, dbDirMissing: bool): seq<Warning> {
    if Truthy(Setting(c, ["database", "enabled"])) && Truthy(Setting(c, ["database", "path"])) && dbDirMissing
    then [MissingDatabaseDir] else []
  }

  /** The web interface enabled with an invalid port. */
  function WebWarnings(c: Tree): seq<Warning> {
    if Truthy(Setting(c, ["web", "enabled"])) && !ValidPort(Setting(c, ["web", "port"]))
    then [InvalidWebPort(Setting(c, ["web", "port"]))] else []
  }

  /** The metrics endpoint enabled with an invalid port. */
  function MetricsWarnings(c: Tree): seq<Warning> {
    if Truthy(Setting(c, ["metrics", "enabled"])) && !ValidPort(Setting(c, ["metrics", "port"]))
    then [InvalidMetricsPort(Setting(c, ["metrics", "port"]))] else []
  }

  /** Warnings whose kinds strictly ascend in check order. */
  predicate Ascending(w: seq<Warning>) {
    forall i, j :: 0 <= i < j < |w| ==> Rank(w[i]) < Rank(w[j])
  }

  /** An ascending run below rank k, followed by at most one warning of rank k, stays ascending. */
  lemma AppendRanked(a: seq<Warning>, b: seq<Warning>, k: nat)
    requires Ascending(a) && forall x :: x in a ==> Rank(x) < k
    requires |b| <= 1 && forall y :: y in b ==> Rank(y) == k
    ensures Ascending(a + b) && forall x :: x in a + b ==> Rank(x) < k + 1
  {
    forall i, j | 0 <= i < j < |a + b| ensures Rank((a + b)[i]) < Rank((a + b)[j]) {
      if j >= |a| {
        assert (a + b)[i] in a && (a + b)[j] in b;
      }
    }
  }

  /** validate reports each kind of warning at most once, in the order it checks them. */
  lemma ValidationWarningsOrdered(c: Tree, dbDirMissing: bool)
    ensures Ascending(ValidationWarnings(c, dbDirMissing))
  {
    var p, b, d, w, m := PortWarnings(c), BrokerWarnings(c), DatabaseWarnings(c, dbDirMissing), WebWarnings(c), MetricsWarnings(c);
    AppendRanked([], p, 0);
    assert [] + p == p;
    AppendRanked(p, b, 1);
    AppendRanked(p + b, d, 2);
    AppendRanked(p + b + d, w, 3);
    AppendRanked(p + b + d + w, m, 4);
  }

  /** A warning is validate's exactly when one of the five checks gives it. */
  lemma InWarnings(c: Tree, dbDirMissing: bool, x: Warning)
    ensures x in ValidationWarnings(c, dbDirMissing) <==>
      x in PortWarnings(c) || x in BrokerWarnings(c) || x in DatabaseWarnings(c, dbDirMissing)
      || x in WebWarnings(c) || x in MetricsWarnings(c)
  {
  }

  /** The port, broker and database warnings appear exactly when their conditions hold. */
  lemma ConditionWarningsMeaning(c: Tree, dbDirMissing: bool)
    ensures var w := ValidationWarnings(c, dbDirMissing);
      && (NoPorts in w <==>
           !Truthy(Setting(c, ["bridge", "auto_detect"])) && !Truthy(Setting(c, ["bridge", "ports"])))
      && (NoBroker in w <==>
           Truthy(Setting(c, ["mqtt", "enabled"])) && !Truthy(Setting(c, ["mqtt", "broker"])))
      && (MissingDatabaseDir in w <==>
           Truthy(Setting(c, ["database", "enabled"])) && Truthy(Setting(c, ["database", "path"])) && dbDirMissing)
  {
    InWarnings(c, dbDirMissing, NoPorts);
    InWarnings(c, dbDirMissing, NoBroker);
    InWarnings(c, dbDirMissing, MissingDatabaseDir);
  }

  /** A port warning appears exactly when its section is enabled with an invalid port, and carries that port. */
  lemma PortWarningsMeaning(c: Tree, dbDirMissing: bool)
    ensures var w := ValidationWarnings(c, dbDirMissing);
      && ((exists x :: x in w && x.InvalidWebPort?) <==>
           Truthy(Setting(c, ["web", "enabled"])) && !ValidPort(Setting(c, ["web", "port"])))
      && (forall x :: x in w && x.InvalidWebPort? ==> x.port == Setting(c, ["web", "port"]))
      && ((exists x :: x in w && x.InvalidMetricsPort?) <==>
           Truthy(Setting(c, ["metrics", "enabled"])) && !ValidPort(Setting(c, ["metrics", "port"])))
      && (forall x :: x in w && x.InvalidMetricsPort? ==> x.port == Setting(c, ["metrics", "port"]))
  {
    var w := ValidationWarnings(c, dbDirMissing);
    var web, metrics := WebWarnings(c), MetricsWarnings(c);
    forall x | x in w ensures x in PortWarnings(c) || x in BrokerWarnings(c) || x in DatabaseWarnings(c, dbDirMissing)
      || x in web || x in metrics
    {
      InWarnings(c, dbDirMissing, x);
    }
    if web != [] {
      InWarnings(c, dbDirMissing, web[0]);
      assert web[0] in w && web[0].InvalidWebPort?;
    }
    if metrics != [] {
      InWarnings(c, dbDirMissing, metrics[0]);
      assert metrics[0] in w && metrics[0].InvalidMetricsPort?;
    }
  }

  // ----- defaults and loading -----

  /** BridgeConfig.DEFAULT_CONFIG. */
  function DefaultConfig(): Tree {
    map[
      "bridge" := Dict(map[
        "auto_detect" := Bool(true),
        "ports" := List([]),
        "message_tracking" := Dict(map["max_age_minutes" := Int(10), "max_messages" := Int(1000)])]),
      "channels" := Dict(map[
        "mapping" := Dict(map["LongFast" := Str("LongModerate"), "LongModerate" := Str("LongFast")])]),
      "filtering" := Dict(map[
        "enabled" := Bool(false),
        "whitelist_nodes" := List([]),
        "blacklist_nodes" := List([]),
        "content_filters" := Dict(map["keywords" := List([]), "regex_patterns" := List([])])]),
      "database" := Dict(map[
        "enabled" := Bool(false),
        "path" := Str("./meshtastic_bridge.db"),
        "retention_days" := Int(30)]),
      "metrics" := Dict(map["enabled" := Bool(false), "port" := Int(9090), "path" := Str("/metrics")]),
      "mqtt" := Dict(map[
        "enabled" := Bool(false),
        "broker" := Str("localhost"),
        "port" := Int(1883),
        "username" := Null,
        "password" := Null,
        "topic_prefix" := Str("meshtastic/bridge"),
        "publish_incoming" := Bool(true),
        "publish_outgoing" := Bool(true)]),
      "web" := Dict(map["enabled" := Bool(false), "host" := Str("0.0.0.0"), "port" := Int(8080), "api_enabled" := Bool(true)]),
      "logging" := Dict(map["level" := Str("INFO"), "file" := Null, "max_bytes" := Int(10485760), "backup_count" := Int(5)])
    ]
  }

  /** _load_config: the defaults, deep-merged with the file's dictionary when a file was read. */
  function LoadConfig(loaded: Option<Tree>): Tree {
    match loaded
    case None => DefaultConfig()
    case Some(file) => Merge(DefaultConfig(), file)
  }

  /** The value of a leaf of a two-level configuration. */
  lemma SettingTwo(c: Tree, section: string, name: string)
    requires section in c && c[section].Dict? && name in c[section].entries
    ensures Setting(c, [section, name]) == c[section].entries[name]
  {
    assert [section, name][1..] == [name] && [name][1..] == [];
    assert Lookup(Dict(c), [section, name]) == Lookup(c[section], [name]);
    assert Lookup(c[section], [name]) == Lookup(c[section].entries[name], []);
  }

  /** The default configuration raises no validation warning. */
  lemma DefaultsRaiseNoWarning(dbDirMissing: bool)
    ensures ValidationWarnings(DefaultConfig(), dbDirMissing) == []
  {
    var c := DefaultConfig();
    SettingTwo(c, "bridge", "auto_detect");
    SettingTwo(c, "mqtt", "enabled");
    SettingTwo(c, "database", "enabled");
    SettingTwo(c, "web", "enabled");
    SettingTwo(c, "metrics", "enabled");
  }

  /** A section the file does not mention keeps its default, key for key. */
  lemma FileKeepsUnmentionedSections(file: Tree, section: string)
    requires section in DefaultConfig() && section !in file
    ensures LoadConfig(Some(file))[section] == DefaultConfig()[section]
  {
  }

  class BridgeConfig {
    var config: Tree

    constructor (loaded: Option<Tree>)
      ensures config == LoadConfig(loaded)
    {
      config := LoadConfig(loaded);
    }

    /** get: walk the dot-separated segments; the default when a step is impossible. */
    method Get(key: string, default: Value) returns (r: Value)
      ensures r == Lookup(Dict(config), Split(key)).GetOr(default)
    {
      var keys := Split(key);
      var value := Dict(config);
      for i := 0 to |keys|
        invariant Lookup(Dict(config), keys) == Lookup(value, keys[i..])
      {
        assert keys[i..][0] == keys[i] && keys[i..][1..] == keys[i + 1..];
        if value.Dict? && keys[i] in value.entries {
          value := value.entries[keys[i]];
        } else {
          return default;
        }
      }
      assert keys[|keys|..] == [];
      return value;
    }

    /**
     * set: walk all but the last segment, creating missing levels as {},
     * then write the value. The walk raises TypeError (ok == false) at an
     * existing non-dictionary level, before anything has been changed.
     */
    method Set(key: string, value: Value) returns (ok: bool)
      modifies this
      ensures var r := SetPath(old(config), Split(key), value);
        ok == r.Some? && config == (if r.Some? then r.value else old(config))
    {
      var keys := Split(key);
      var n := |keys| - 1;
      // the walk down: frames[t] is the dictionary entered at depth t
      var frames: seq<Tree> := [];
      var cur := config;
      for i := 0 to n
        invariant |frames| == i
        invariant (frames + [cur])[0] == config
        invariant forall t :: 0 <= t < i ==> Step((frames + [cur])[t], keys[t]) == Some((frames + [cur])[t + 1])
      {
        ghost var levels := frames + [cur];
        var k := keys[i];
        if k !in cur {
          frames := frames + [cur];
          cur := map[];
        } else if cur[k].Dict? {
          frames := frames + [cur];
          cur := cur[k].entries;
        } else {
          SetFailsAbove(levels, keys, value, i, 0);
          return false;
        }
        assert forall t :: 0 <= t <= i ==> (frames + [cur])[t] == levels[t];
      }
      // the way back up: write each level into its parent
      ghost var levels := frames + [cur];
      var acc := cur[keys[n] := value];
      assert keys[n..] == [keys[n]];
      var j := n;
      while j > 0
        invariant 0 <= j <= n
        invariant SetPath(levels[j], keys[j..], value) == Some(acc)
      {
        assert keys[j - 1..][1..] == keys[j..];
        acc := frames[j - 1][keys[j - 1] := Dict(acc)];
        j := j - 1;
      }
      config := acc;
      return true;
    }

    /** get on the key "section.name", with None as the default. */
    method GetDotted(section: string, name: string) returns (r: Value)
      requires '.' !in section && '.' !in name
      ensures r == Setting(config, [section, name])
    {
      SplitTwo(section, name);
      r := Get(section + "." + name, Null);
    }

    /**
     * validate: the warnings for the current configuration, as
     * ValidationWarnings gives them. `dbDirMissing` stands for "the database
     * path has a non-empty directory part that does not exist".
     */
    method Validate(dbDirMissing: bool) returns (warnings: seq<Warning>)
      ensures warnings == ValidationWarnings(config, dbDirMissing)
    {
      var ports := CheckPorts();
      var mqtt := CheckMqtt();
      var database := CheckDatabase(dbDirMissing);
      var web := CheckWeb();
      var metrics := CheckMetrics();
      warnings := ports + mqtt + database + web + metrics;
    }

    /** validate's first check: a serial port must be listed unless auto-detection is on. */
    method CheckPorts() returns (w: seq<Warning>)
      ensures w == PortWarnings(config)
    {
      w := [];
      var autoDetect := GetDotted("bridge", "auto_detect");
      var ports := GetDotted("bridge", "ports");
      if !Truthy(autoDetect) && !Truthy(ports) {
        w := w + [NoPorts];
      }
    }

    /** validate's second check: MQTT, when enabled, needs a broker. */
    method CheckMqtt() returns (w: seq<Warning>)
      ensures w == BrokerWarnings(config)
    {
      w := [];
      var mqttEnabled := GetDotted("mqtt", "enabled");
      if Truthy(mqttEnabled) {
        var broker := GetDotted("mqtt", "broker");
        if !Truthy(broker) {
          w := w + [NoBroker];
        }
      }
    }

    /** validate's third check: the database directory must exist when the database is enabled. */
    method CheckDatabase(dbDirMissing: bool) returns (w: seq<Warning>)
      ensures w == DatabaseWarnings(config, dbDirMissing)
    {
      w := [];
      var dbEnabled := GetDotted("database", "enabled");
      if Truthy(dbEnabled) {
        var dbPath := GetDotted("database", "path");
        if Truthy(dbPath) && dbDirMissing {
          w := w + [MissingDatabaseDir];
        }
      }
    }

    /** validate's fourth check: the web port, when the web interface is enabled. */
    method CheckWeb() returns (w: seq<Warning>)
      ensures w == WebWarnings(config)
    {
      w := [];
      var webEnabled := GetDotted("web", "enabled");
      if Truthy(webEnabled) {
        var port := GetDotted("web", "port");
        if !ValidPort(port) {
          w := w + [InvalidWebPort(port)];
        }
      }
    }

    /** validate's last check: the metrics port, when the metrics endpoint is enabled. */
    method CheckMetrics() returns (w: seq<Warning>)
      ensures w == MetricsWarnings(config)
    {
      w := [];
      var metricsEnabled := GetDotted("metrics", "enabled");
      if Truthy(metricsEnabled) {
        var port := GetDotted("metrics", "port");
        if !ValidPort(port) {
          w := w + [InvalidMetricsPort(port)];
        }
      }
    }
  }
}
