/** `helios config`: the YAML file of settings (`endpoint`, `api_key`, `output`) and the
    `show`, `set`, `unset` and `init` commands over it. The file is an in-memory value;
    reading it is `_load_config`, and every write replaces it with a map. */
module CliConfig {

  import opened Wrappers
  import opened CliCommon

  /** The file as `_load_config` finds it: absent, with YAML that loads as nothing
      (empty, or `null`), or holding a mapping. */
  datatype ConfigFile = Missing | Blank | Holds(data: map<string, string>)

  /** `_load_config`: a missing file and one whose YAML is falsy both read as `{}`. */
  function Loaded(f: ConfigFile): (m: map<string, string>)
    ensures f.Holds? ==> m == f.data
    ensures !f.Holds? ==> m == map[]
  {
    if f.Holds? then f.data else map[]
  }

  const ValidKeys: seq<string> := ["endpoint", "api_key", "output"]
  const OutputFormats: seq<string> := ["table", "json", "yaml"]
  const DefaultEndpoint: string := "http://localhost:8000"

  /** What `set` ends with: `SystemExit(1)` after an error line, or the confirmation. */
  datatype SetOutcome = ExitOne(error: string) | Confirmed(line: string)

  /** The confirmation line of `set`: the API key is never echoed. */
  function SetLine(key: string, value: string): (line: string)
    ensures key == "api_key" ==> line == "Set api_key = ***"
    ensures key != "api_key" ==> line == "Set " + key + " = " + value
  {
    "Set " + key + " = " + (if key == "api_key" then "***" else value)
  }

  /** The keys `set` accepts, and for `output` the formats it accepts. */
  predicate Accepted(key: string, value: string) {
    key in ValidKeys && (key == "output" ==> value in OutputFormats)
  }

  /** The mapping `init` writes: `api_key` only when one was typed. */
  function InitData(endpoint: string, apiKey: string, output: string): (m: map<string, string>)
    ensures m.Keys == {"endpoint", "output"} + (if apiKey != "" then {"api_key"} else {})
    ensures m["endpoint"] == endpoint && m["output"] == output
    ensures "api_key" in m ==> m["api_key"] == apiKey
  {
    var base := map["endpoint" := endpoint, "output" := output];
    if apiKey != "" then base["api_key" := apiKey] else base
  }

  /** One entry of the data `show` dumps. */
  datatype Entry = Text(s: string) | Null | Runtime(endpoint: string, apiKeySet: bool)

  /** One row of the `show` table: setting, value and where the value came from. */
  datatype Row = Row(setting: string, value: string, source: string)

  /** `_display_config`: the file's settings (without `runtime`) resolved against the runtime
      endpoint and whether the runtime holds an API key. */
  function DisplayRows(fileConfig: map<string, string>, runtimeEndpoint: string, apiKeySet: bool): (rows: seq<Row>)
    ensures |rows| == 3
    ensures rows[0].setting == "endpoint" && rows[1].setting == "api_key" && rows[2].setting == "output"
    ensures var fe := if "endpoint" in fileConfig then fileConfig["endpoint"] else "";
      && (fe != "" ==> rows[0] == Row("endpoint", fe, "config file"))
      && (fe == "" ==> rows[0] == Row("endpoint", runtimeEndpoint, "default/env"))
    ensures var key := if "api_key" in fileConfig then fileConfig["api_key"] else "";
      && rows[1].value == (if key != "" then "***" else "(not set)")
      && rows[1].source == (if key != "" then "config file" else if apiKeySet then "env: HELIOS_API_KEY" else "(not set)")
    ensures "output" in fileConfig ==> rows[2] == Row("output", fileConfig["output"], "config file")
    ensures "output" !in fileConfig ==> rows[2] == Row("output", "table", "default")
  {
    var fileEndpoint := if "endpoint" in fileConfig then fileConfig["endpoint"] else "";
    var key := if "api_key" in fileConfig then fileConfig["api_key"] else "";
    [ Row("endpoint", if fileEndpoint != "" then fileEndpoint else runtimeEndpoint,
          if fileEndpoint != "" then "config file" else "default/env"),
      Row("api_key", if key != "" then "***" else "(not set)",
          if key != "" then "config file" else if apiKeySet then "env: HELIOS_API_KEY" else "(not set)"),
      Row("output", if "output" in fileConfig then fileConfig["output"] else "table",
          if "output" in fileConfig then "config file" else "default") ]
  }

  /** The table never shows the stored API key itself. */
  lemma DisplayRowsHideKey(fileConfig: map<string, string>, runtimeEndpoint: string, apiKeySet: bool)
    ensures DisplayRows(fileConfig, runtimeEndpoint, apiKeySet)[1].value in {"***", "(not set)"}
  {
  }

  /** What `show` prints. */
  datatype Shown = Dumped(format: Rendering, data: map<string, Entry>) | Table(rows: seq<Row>)

  /** `show`: the loaded settings plus a `runtime` entry; in the dumps a present API key is
      masked as `"***"` (or `None` when empty). `ctxEndpoint`, `ctxApiKey` and `ctxOutput`
      are the context's entries, absent for `None`. */
  method Show(file: ConfigFile, ctxEndpoint: Option<string>, ctxApiKey: Option<string>, ctxOutput: Option<string>)
    returns (shown: Shown)
    ensures var format := RenderingOf(ctxOutput.GetOr("table"));
      format == TableView <==> shown.Table?
    ensures shown.Dumped? ==>
      && shown.format == RenderingOf(ctxOutput.GetOr("table"))
      && shown.data.Keys == Loaded(file).Keys + {"runtime"}
      && shown.data["runtime"] == Runtime(ctxEndpoint.GetOr(DefaultEndpoint), Truthy(ctxApiKey))
      && ("api_key" in Loaded(file) ==> shown.data["api_key"] == (if Loaded(file)["api_key"] != "" then Text("***") else Null))
      && (forall k :: k in Loaded(file) && k != "api_key" && k != "runtime" ==> shown.data[k] == Text(Loaded(file)[k]))
    ensures shown.Table? ==>
      shown.rows == DisplayRows(Loaded(file) - {"runtime"}, ctxEndpoint.GetOr(DefaultEndpoint), Truthy(ctxApiKey))
  {
    var format := RenderingOf(ctxOutput.GetOr("table"));
    var loaded := Loaded(file);
    var data: map<string, Entry> := map k | k in loaded :: Text(loaded[k]);
    var runtimeEndpoint := ctxEndpoint.GetOr(DefaultEndpoint);
    data := data["runtime" := Runtime(runtimeEndpoint, Truthy(ctxApiKey))];
    if format != TableView {
      if "api_key" in data {
        data := data["api_key" := if loaded["api_key"] != "" then Text("***") else Null];
      }
      shown := Dumped(format, data);
    } else {
      var fileConfig := map k | k in data && k != "runtime" :: data[k].s;
      assert fileConfig == loaded - {"runtime"};
      shown := Table(DisplayRows(fileConfig, runtimeEndpoint, Truthy(ctxApiKey)));
    }
  }

  /** The settings file of one user's `~/.helios`. */
  class ConfigDir {
    var file: ConfigFile

    constructor (file: ConfigFile)
      ensures this.file == file
    {
      this.file := file;
    }

    /** `set KEY VALUE`: an unknown key, or an unknown output format, exits 1 without
        writing; otherwise the loaded settings with `key` set are written back. */
    method Set(key: string, value: string) returns (outcome: SetOutcome)
      modifies this
      ensures outcome.Confirmed? <==> Accepted(key, value)
      ensures outcome.ExitOne? ==> file == old(file)
      ensures key !in ValidKeys ==> outcome == ExitOne("Invalid key '" + key + "'. Valid keys: endpoint, api_key, output")
      ensures key == "output" && value !in OutputFormats ==> outcome == ExitOne("Invalid output format. Must be: table, json, or yaml")
      ensures outcome.Confirmed? ==> file == Holds(Loaded(old(file))[key := value]) && outcome.line == SetLine(key, value)
    {
      if key !in ValidKeys {
        return ExitOne("Invalid key '" + key + "'. Valid keys: endpoint, api_key, output");
      }
      if key == "output" && value !in OutputFormats {
        return ExitOne("Invalid output format. Must be: table, json, or yaml");
      }
      var data := Loaded(file);
      data := data[key := value];
      file := Holds(data);
      outcome := Confirmed(SetLine(key, value));
    }

    /** `unset KEY`: a present key is deleted and the file written; an absent one changes
        nothing. */
    method Unset(key: string) returns (removed: bool)
      modifies this
      ensures removed <==> key in Loaded(old(file))
      ensures removed ==> file == Holds(Loaded(old(file)) - {key})
      ensures !removed ==> file == old(file)
    {
      var data := Loaded(file);
      if key in data {
        data := data - {key};
        file := Holds(data);
        removed := true;
      } else {
        removed := false;
      }
    }

    /** `init`: the answers to the three prompts are written as the whole file. The output
        prompt only accepts one of the three formats. */
    method Init(endpoint: string, apiKey: string, output: string)
      requires output in OutputFormats
      modifies this
      ensures file == Holds(InitData(endpoint, apiKey, output))
    {
      var data := map["endpoint" := endpoint, "output" := output];
      if apiKey != "" {
        data := data["api_key" := apiKey];
      }
      file := Holds(data);
    }
  }

  /** After a successful `set`, loading gives the value back and every other setting is
      as before. */
  lemma SetThenLoad(f: ConfigFile, key: string, value: string, other: string)
    requires other != key
    ensures Loaded(Holds(Loaded(f)[key := value]))[key] == value
    ensures other in Loaded(f) <==> other in Loaded(Holds(Loaded(f)[key := value]))
    ensures other in Loaded(f) ==> Loaded(Holds(Loaded(f)[key := value]))[other] == Loaded(f)[other]
  {
  }

  /** `unset` undoes `set` of a key that was not there. */
  lemma UnsetUndoesSet(f: ConfigFile, key: string, value: string)
    requires f.Holds? && key !in f.data
    ensures Loaded(Holds(Loaded(f)[key := value])) - {key} == Loaded(f)
  {
    var m := Loaded(f);
    assert (m[key := value] - {key}).Keys == m.Keys;
  }

  /** A stored API key is masked in the dumps and hidden in the table. */
  lemma ShowMasksKey(file: ConfigFile, ctxEndpoint: Option<string>, ctxApiKey: Option<string>)
    requires "api_key" in Loaded(file) && Loaded(file)["api_key"] != ""
    ensures DisplayRows(Loaded(file) - {"runtime"}, ctxEndpoint.GetOr(DefaultEndpoint), Truthy(ctxApiKey))[1]
      == Row("api_key", "***", "config file")
  {
  }
}
