/** `overwriteConfig` of the legacy CasperJS interpreter: options from the
    command line and then from the recipe's JSON file are merged into the
    global `oConfig`, where only keys that already exist may change, and a
    key `dir.X` changes the entry X of the `dir` object. */
module ConfigMerge {
  import opened Wrappers
  import opened JsValues

  /** The own properties of `oConfig`. */
  type Config = map<string, Value>

  /** The properties of an options object, in `for…in` order. */
  type Options = seq<(string, Value)>

  /** The keys of an object are distinct. */
  predicate DistinctKeys(opts: Options) {
    forall i, j :: 0 <= i < j < |opts| ==> opts[i].0 != opts[j].0
  }

  /** The configuration before any merge. */
  function InitialConfig(): Config {
    var dir := map["prefix" := Str("./"), "config" := Str("config/"), "cookie" := Str("cookie/"),
                   "log" := Str("log/"), "screenshot" := Str("screenshot/")];
    map["uid" := Null, "width" := Num(1280), "height" := Num(720), "dir" := Object(dir), "timeout" := Num(800)]
  }

  /** `sKey.length > 4 && sKey.substr(0, 4) === 'dir.'`. */
  predicate IsDirKey(key: string) {
    |key| > 4 && key[..4] == "dir."
  }

  /** The entries of the `dir` object, when it is one. */
  function DirKeys(c: Config): set<string> {
    if "dir" in c && c["dir"].Object? then c["dir"].fields.Keys else {}
  }

  /** One iteration of `overwriteConfig`'s loop, with "already defined"
      meaning an own property: None when reading `oConfig.dir[X]` throws a
      TypeError because `dir` is null or absent. Writing an entry of a
      `dir` that is a string, number or boolean is silently ignored. */
  function OverwriteKey(config: Config, key: string, v: Value): Option<Config> {
    if key in config then Some(config[key := v])
    else if IsDirKey(key) then
      var arg := key[4..];
      if "dir" !in config || config["dir"].Null? then None
      else if config["dir"].Object? && arg in config["dir"].fields then
        Some(config["dir" := Object(config["dir"].fields[arg := v])])
      else Some(config)
    else Some(config)
  }

  /** The whole loop: the iterations in order, stopping at a TypeError. */
  function Overwrite(config: Config, opts: Options): Option<Config>
    decreases |opts|
  {
    if |opts| == 0 then Some(config)
    else
      match Overwrite(config, opts[..|opts| - 1])
      case None => None
      case Some(c) => OverwriteKey(c, opts[|opts| - 1].0, opts[|opts| - 1].1)
  }

  /** An option whose key exists at top level replaces that entry, `dir`
      included, which replaces the whole `dir` object. */
  lemma ExistingKeyIsOverwritten(config: Config, key: string, v: Value)
    requires key in config
    ensures OverwriteKey(config, key, v) == Some(config[key := v])
  {
  }

  /** An option whose key is neither a top-level key nor a `dir.` key is
      ignored. */
  lemma UnknownKeyIsIgnored(config: Config, key: string, v: Value)
    requires key !in config && !IsDirKey(key)
    ensures OverwriteKey(config, key, v) == Some(config)
  {
  }

  /** A `dir.X` option (with `dir.X` not itself a top-level key) changes
      entry X of a `dir` object exactly when X is already one of its
      entries and is not empty; the bare key `dir.` is ignored. With `dir`
      null it throws. */
  lemma DirEntryUpdate(config: Config, arg: string, v: Value)
    requires "dir" in config && "dir." + arg !in config
    ensures config["dir"].Object? ==>
              OverwriteKey(config, "dir." + arg, v)
              == if arg != "" && arg in config["dir"].fields
                 then Some(config["dir" := Object(config["dir"].fields[arg := v])])
                 else Some(config)
    ensures config["dir"].Null? ==> (OverwriteKey(config, "dir." + arg, v) == None <==> arg != "")
  {
    var key := "dir." + arg;
    assert IsDirKey(key) <==> arg != "" by {
      assert |key| == 4 + |arg|;
      if arg != "" {
        assert key[..4] == "dir.";
      }
    }
    assert arg != "" ==> key[4..] == arg;
  }

  /** One iteration never adds or removes a top-level key, and unless its
      key is `dir` it neither adds nor removes an entry of `dir`. */
  lemma OverwriteKeyKeepsKeys(config: Config, key: string, v: Value)
    requires OverwriteKey(config, key, v).Some?
    ensures OverwriteKey(config, key, v).value.Keys == config.Keys
    ensures key != "dir" ==> DirKeys(OverwriteKey(config, key, v).value) == DirKeys(config)
  {
  }

  /** The key set of `oConfig` never grows (nor shrinks), and the entries
      of `dir` stay the same unless an option replaces `dir` itself. */
  lemma {:induction false} KeysNeverGrow(config: Config, opts: Options)
    requires Overwrite(config, opts).Some?
    ensures Overwrite(config, opts).value.Keys == config.Keys
    ensures (forall i :: 0 <= i < |opts| ==> opts[i].0 != "dir") ==>
              DirKeys(Overwrite(config, opts).value) == DirKeys(config)
    decreases |opts|
  {
    if |opts| > 0 {
      var init := opts[..|opts| - 1];
      KeysNeverGrow(config, init);
      var c := Overwrite(config, init).value;
      OverwriteKeyKeepsKeys(c, opts[|opts| - 1].0, opts[|opts| - 1].1);
    }
  }

  /** Once an iteration throws, the whole loop has thrown. */
  lemma {:induction false} ThrowIsFinal(config: Config, opts: Options, n: nat)
    requires n <= |opts| && Overwrite(config, opts[..n]).None?
    ensures Overwrite(config, opts).None?
    decreases |opts| - n
  {
    if n < |opts| {
      assert opts[..n + 1][..n] == opts[..n];
      ThrowIsFinal(config, opts, n + 1);
    } else {
      assert opts[..n] == opts;
    }
  }

  /** An entry that no option names and that is not `dir` keeps its value. */
  lemma {:induction false} UntouchedKeyKeepsValue(config: Config, opts: Options, k: string)
    requires k in config && k != "dir"
    requires forall i :: 0 <= i < |opts| ==> opts[i].0 != k
    requires Overwrite(config, opts).Some?
    ensures k in Overwrite(config, opts).value && Overwrite(config, opts).value[k] == config[k]
    decreases |opts|
  {
    if |opts| > 0 {
      var init := opts[..|opts| - 1];
      UntouchedKeyKeepsValue(config, init, k);
      KeysNeverGrow(config, init);
    }
  }

  /** With distinct keys, an option naming a top-level entry other than
      `dir` leaves its value there, whatever follows it. */
  lemma {:induction false} OptionValueSticks(config: Config, opts: Options, i: nat)
    requires DistinctKeys(opts) && i < |opts|
    requires opts[i].0 in config && opts[i].0 != "dir"
    requires Overwrite(config, opts).Some?
    ensures opts[i].0 in Overwrite(config, opts).value
    ensures Overwrite(config, opts).value[opts[i].0] == opts[i].1
    decreases |opts|
  {
    var init := opts[..|opts| - 1];
    KeysNeverGrow(config, init);
    if i < |opts| - 1 {
      OptionValueSticks(config, init, i);
    }
  }

  /** The outcome of the configuration stage of the script. */
  datatype Loaded =
    | Thrown               // a `dir.X` option met a null `dir`
    | NoUid                // "ERROR: No uid given", and the script exits
    | Loaded(config: Config)

  /** The command-line options are merged first; without a uid the script
      stops; otherwise the JSON file's `oConfig`, when it has one, is
      merged on top. */
  function LoadConfig(cli: Options, json: Option<Options>): Loaded {
    match Overwrite(InitialConfig(), cli)
    case None => Thrown
    case Some(c) =>
      if Get(Object(c), "uid") == Some(Null) then NoUid
      else if json.None? then Loaded(c)
      else
        match Overwrite(c, json.value)
        case None => Thrown
        case Some(c2) => Loaded(c2)
  }

  /** The JSON file's values win over the command line's: a top-level key
      (other than `dir`) set by the JSON file has the file's value, and one
      the file does not set keeps the command line's value, or the initial
      one. */
  lemma JsonValuesWin(cli: Options, json: Options, k: string, v: Value)
    requires DistinctKeys(cli) && DistinctKeys(json)
    requires k in InitialConfig() && k != "dir"
    requires LoadConfig(cli, Some(json)).Loaded?
    ensures k in LoadConfig(cli, Some(json)).config && k in Overwrite(InitialConfig(), cli).value
    ensures (k, v) in json ==> LoadConfig(cli, Some(json)).config[k] == v
    ensures (forall i :: 0 <= i < |json| ==> json[i].0 != k) ==>
              LoadConfig(cli, Some(json)).config[k] == Overwrite(InitialConfig(), cli).value[k]
  {
    var c := Overwrite(InitialConfig(), cli).value;
    KeysNeverGrow(InitialConfig(), cli);
    KeysNeverGrow(c, json);
    if (k, v) in json {
      var i :| 0 <= i < |json| && json[i] == (k, v);
      OptionValueSticks(c, json, i);
    }
    if forall i :: 0 <= i < |json| ==> json[i].0 != k {
      UntouchedKeyKeepsValue(c, json, k);
    }
  }

  /** A loaded configuration has exactly the initial keys. */
  lemma LoadedKeepsInitialKeys(cli: Options, json: Option<Options>)
    requires LoadConfig(cli, json).Loaded?
    ensures LoadConfig(cli, json).config.Keys == InitialConfig().Keys
  {
    KeysNeverGrow(InitialConfig(), cli);
    var c := Overwrite(InitialConfig(), cli).value;
    if json.Some? {
      KeysNeverGrow(c, json.value);
    }
  }

  /** `overwriteConfig` as written: "already defined" is tested with
      `typeof(o[k]) !== 'undefined'`, which also holds for the names every
      object inherits from `Object.prototype`. */
  function OverwriteKeyAsWritten(config: Config, key: string, v: Value): Option<Config> {
    if key in config || IsPrototypeMember(key) then Some(config[key := v])
    else if IsDirKey(key) then
      var arg := key[4..];
      if "dir" !in config || config["dir"].Null? then None
      else if config["dir"].Object? && (arg in config["dir"].fields || IsPrototypeMember(arg)) then
        Some(config["dir" := Object(config["dir"].fields[arg := v])])
      else Some(config)
    else Some(config)
  }

  /** As written, an option named `toString` is taken for an existing
      setting and becomes a new own key of `oConfig`; the own-key test
      ignores it. */
  lemma PrototypeNameGrowsConfig(v: Value)
    ensures OverwriteKeyAsWritten(InitialConfig(), "toString", v).Some?
    ensures OverwriteKeyAsWritten(InitialConfig(), "toString", v).value.Keys
            == InitialConfig().Keys + {"toString"} != InitialConfig().Keys
    ensures OverwriteKey(InitialConfig(), "toString", v) == Some(InitialConfig())
  {
    assert "toString" !in InitialConfig();
    assert !IsDirKey("toString") by {
      assert "toString"[..4][0] != "dir."[0];
    }
  }

  /** The script's configuration state: the global `oConfig`. */
  class Scrape {
    var config: Config

    constructor ()
      ensures config == InitialConfig()
    {
      config := InitialConfig();
    }

    /** `overwriteConfig(options)`: returns whether it threw, in which
        case the entries merged before the failing key stay merged. */
    method OverwriteConfig(options: Options) returns (thrown: bool)
      modifies this
      ensures thrown <==> Overwrite(old(config), options).None?
      ensures !thrown ==> Overwrite(old(config), options) == Some(config)
      ensures thrown ==> exists n :: 0 <= n < |options| && Overwrite(old(config), options[..n]) == Some(config)
                                     && OverwriteKey(config, options[n].0, options[n].1).None?
    {
      for i := 0 to |options|
        invariant Overwrite(old(config), options[..i]) == Some(config)
      {
        assert options[..i + 1][..i] == options[..i];
        var (key, v) := options[i];
        if key in config {
          config := config[key := v];
        } else if |key| > 4 && key[..4] == "dir." {
          var arg := key[4..];
          if "dir" !in config || config["dir"].Null? {
            ThrowIsFinal(old(config), options, i + 1);
            return true;
          }
          var dir := config["dir"];
          if dir.Object? && arg in dir.fields {
            config := config["dir" := Object(dir.fields[arg := v])];
          }
        }
      }
      assert options[..|options|] == options;
      return false;
    }

    /** The configuration stage of the script: the command-line options,
        the uid check, then the JSON file's `oConfig` when it has one. */
    method Load(cli: Options, json: Option<Options>) returns (outcome: Loaded)
      requires config == InitialConfig()
      modifies this
      ensures outcome == LoadConfig(cli, json)
      ensures outcome.Loaded? ==> config == outcome.config
    {
      var thrown := OverwriteConfig(cli);
      if thrown {
        return Thrown;
      }
      if Get(Object(config), "uid") == Some(Null) {
        return NoUid;
      }
      if json.Some? {
        thrown := OverwriteConfig(json.value);
        if thrown {
          return Thrown;
        }
      }
      return Loaded(config);
    }
  }
}
