/** `_create_args_from_config`: routing configuration keys into request fields and `options`. */
module CreateArgs {
  import opened Wrappers
  import opened Strings

  /** A Python value as far as the client inspects it. */
  datatype Value =
    | NoneValue
    | BoolValue(b: bool)
    | IntValue(i: int)
    | StrValue(s: string)
    | MappingValue(entries: map<string, Value>)
    | ListValue(items: seq<Value>)
    | ModelClassValue(cls: ModelClass)
    | OtherValue(tag: string)

  /** A Pydantic model class; `model_json_schema()` is all that is used of it. */
  datatype ModelClass = ModelClass(name: string, jsonSchema: map<string, Value>)

  /** `cls.model_json_schema()`: a JSON schema object, never None. */
  function Schema(c: ModelClass): (v: Value)
    ensures v.MappingValue?
  {
    MappingValue(c.jsonSchema)
  }

  /** A configuration dictionary: its entries in insertion order. */
  type Config = seq<(string, Value)>

  /** `LLM_CONTROL_PARAMS`. */
  const ControlParams: set<string> := {
    "temperature", "top_p", "top_k", "repeat_penalty", "frequency_penalty", "presence_penalty",
    "mirostat", "mirostat_eta", "mirostat_tau", "seed", "num_ctx", "num_predict", "num_gpu",
    "stop", "tfs_z", "typical_p"
  }

  /**
    * The literal part of `OLLAMA_VALID_CREATE_KEYS`; the rest are the fields of the
    * backend's `ChatRequest`, so the whole set is a parameter `requestKeys` that
    * contains these.
    */
  const LiteralRequestKeys: set<string> := {
    "model", "messages", "tools", "stream", "format", "options", "keep_alive", "response_format"
  }

  /** Entry `i` is the first with key `k`. */
  predicate FirstKeyAt(config: Config, k: string, i: int) {
    0 <= i < |config| && config[i].0 == k && forall j :: 0 <= j < i ==> config[j].0 != k
  }

  lemma FirstKeyAtTail(config: Config, k: string, i: int)
    requires FirstKeyAt(config, k, i) && config[0].0 != k
    ensures i > 0 && FirstKeyAt(config[1..], k, i - 1)
  {
    forall j | 0 <= j < i - 1 ensures config[1..][j].0 != k {
      assert config[1..][j] == config[j + 1];
    }
  }

  /** `config[k]` when present (the first entry with that key). */
  function Find(config: Config, k: string): (r: Option<Value>)
    ensures r.Some? <==> exists i :: 0 <= i < |config| && config[i].0 == k
    ensures forall i :: FirstKeyAt(config, k, i) ==> r == Some(config[i].1)
    decreases |config|
  {
    if config == [] then None
    else if config[0].0 == k then
      assert forall i :: FirstKeyAt(config, k, i) ==> i == 0;
      Some(config[0].1)
    else
      var r := Find(config[1..], k);
      assert forall i :: FirstKeyAt(config, k, i) ==> r == Some(config[i].1) by {
        forall i | FirstKeyAt(config, k, i) ensures r == Some(config[i].1) {
          FirstKeyAtTail(config, k, i);
        }
      }
      assert (exists i :: 0 <= i < |config[1..]| && config[1..][i].0 == k) ==>
        exists i :: 0 <= i < |config| && config[i].0 == k by {
        if exists i :: 0 <= i < |config[1..]| && config[1..][i].0 == k {
          var i :| 0 <= i < |config[1..]| && config[1..][i].0 == k;
          assert config[i + 1].0 == k;
        }
      }
      assert (exists i :: 0 <= i < |config| && config[i].0 == k) ==>
        exists i :: 0 <= i < |config[1..]| && config[1..][i].0 == k by {
        if exists i :: 0 <= i < |config| && config[i].0 == k {
          var i :| 0 <= i < |config| && config[i].0 == k;
          assert i > 0 && config[1..][i - 1].0 == k;
        }
      }
      r
  }

  /** The value of the last entry whose key lower-cases to `x`. */
  function LastFor(config: Config, x: string): Option<Value>
    decreases |config|
  {
    if config == [] then None
    else if Lower(config[|config| - 1].0) == x then Some(config[|config| - 1].1)
    else LastFor(config[..|config| - 1], x)
  }

  /** The options map before the loop: a Mapping-valued `options` entry, otherwise empty. */
  function InitialOptions(config: Config): map<string, Value> {
    match Find(config, "options")
    case Some(MappingValue(m)) => m
    case _ => map[]
  }

  /** The loop over the entries: request keys copied, control parameters into `options`, the rest dropped. */
  function Route(config: Config, requestKeys: set<string>, options0: map<string, Value>)
    : (map<string, Value>, map<string, Value>)
    decreases |config|
  {
    if config == [] then (map[], options0)
    else
      var (args, options) := Route(config[..|config| - 1], requestKeys, options0);
      var (k, v) := config[|config| - 1];
      var kl := Lower(k);
      if kl in requestKeys then (args[kl := v], options)
      else if kl in ControlParams then (args, options[kl := v])
      else (args, options)
  }

  /** What `_create_args_from_config` returns: request keys only, and `options`. */
  function ConfigToCreateArgs(config: Config, requestKeys: set<string>): (r: map<string, Value>)
    ensures forall x :: x in r ==> x in requestKeys || x == "options"
  {
    RouteSpec(config, requestKeys, InitialOptions(config));
    var (args, options) := Route(config, requestKeys, InitialOptions(config));
    if options != map[] then args["options" := MappingValue(options)] else args
  }

  /** `_create_args_from_config`. */
  method CreateArgsFromConfig(config: Config, requestKeys: set<string>) returns (createArgs: map<string, Value>)
    ensures createArgs == ConfigToCreateArgs(config, requestKeys)
  {
    createArgs := map[];
    var options: map<string, Value> := map[];
    var found := Find(config, "options");
    if found.Some? {
      if found.value.MappingValue? {
        options := found.value.entries;
      } else {
        options := map[];
      }
    }
    ghost var options0 := options;
    var i := 0;
    while i < |config|
      invariant 0 <= i <= |config|
      invariant (createArgs, options) == Route(config[..i], requestKeys, options0)
    {
      var (k, v) := config[i];
      assert config[..i + 1][..i] == config[..i];
      var kl := Lower(k);
      if kl in requestKeys {
        createArgs := createArgs[kl := v];
      } else if kl in ControlParams {
        options := options[kl := v];
      }
      i := i + 1;
    }
    assert config[..i] == config;
    if options != map[] {
      createArgs := createArgs["options" := MappingValue(options)];
    }
  }

  // ---------------------------------------------------------------- properties

  /** A control parameter that the loop moves into `options`. */
  predicate MovedToOptions(config: Config, requestKeys: set<string>, x: string) {
    x !in requestKeys && x in ControlParams && LastFor(config, x).Some?
  }

  /**
    * The routing, key by key: a request key holds the last value whose key lower-cases
    * to it; `options` holds the Mapping-valued `options` entry overridden by every moved
    * control parameter; nothing else is kept.
    */
  lemma {:induction false} RouteSpec(config: Config, requestKeys: set<string>, options0: map<string, Value>)
    ensures var (args, options) := Route(config, requestKeys, options0);
      && (forall x :: x in args <==> x in requestKeys && LastFor(config, x).Some?)
      && (forall x :: x in args ==> args[x] == LastFor(config, x).value)
      && (forall x :: x in options <==> x in options0 || MovedToOptions(config, requestKeys, x))
      && (forall x :: x in options ==>
            options[x] == if MovedToOptions(config, requestKeys, x) then LastFor(config, x).value else options0[x])
    decreases |config|
  {
    if config != [] {
      RouteSpec(config[..|config| - 1], requestKeys, options0);
    }
  }

  /** The result of `_create_args_from_config`, key by key. */
  lemma CreateArgsRouting(config: Config, requestKeys: set<string>)
    requires "options" in requestKeys
    ensures var r := ConfigToCreateArgs(config, requestKeys);
      && (forall x :: x != "options" ==>
            (x in r <==> x in requestKeys && LastFor(config, x).Some?))
      && (forall x :: x != "options" && x in r ==> r[x] == LastFor(config, x).value)
      && ("options" in r <==>
            LastFor(config, "options").Some? || InitialOptions(config) != map[] ||
            exists x :: MovedToOptions(config, requestKeys, x))
    ensures (forall x :: !MovedToOptions(config, requestKeys, x)) && InitialOptions(config) != map[] ==>
      "options" in ConfigToCreateArgs(config, requestKeys) &&
      ConfigToCreateArgs(config, requestKeys)["options"] == MappingValue(InitialOptions(config))
    ensures ((forall x :: !MovedToOptions(config, requestKeys, x)) && InitialOptions(config) == map[] &&
             LastFor(config, "options").Some?) ==>
      "options" in ConfigToCreateArgs(config, requestKeys) &&
      ConfigToCreateArgs(config, requestKeys)["options"] == LastFor(config, "options").value
  {
    var o0 := InitialOptions(config);
    RouteSpec(config, requestKeys, o0);
    var (args, options) := Route(config, requestKeys, o0);
    if exists x :: MovedToOptions(config, requestKeys, x) {
      var x :| MovedToOptions(config, requestKeys, x);
      assert x in options;
    }
    if o0 != map[] {
      var x :| x in o0;
      assert x in options;
    }
    if forall x :: !MovedToOptions(config, requestKeys, x) {
      assert options == o0;
    }
  }

  /** Keys that are neither request keys nor `options` never reach the request. */
  lemma UnknownKeysDropped(config: Config, requestKeys: set<string>, x: string)
    requires x !in requestKeys && x != "options"
    ensures x !in ConfigToCreateArgs(config, requestKeys)
  {
    RouteSpec(config, requestKeys, InitialOptions(config));
  }

  /**
    * Control parameters override same-named entries of a Mapping-valued `options`, and a
    * non-Mapping `options` value is discarded once any control parameter is present.
    */
  lemma OptionsMerge(config: Config, requestKeys: set<string>, x: string)
    requires MovedToOptions(config, requestKeys, x)
    ensures "options" in ConfigToCreateArgs(config, requestKeys)
    ensures var opts := ConfigToCreateArgs(config, requestKeys)["options"];
      && opts.MappingValue?
      && x in opts.entries && opts.entries[x] == LastFor(config, x).value
      && (forall y :: y in opts.entries <==> y in InitialOptions(config) || MovedToOptions(config, requestKeys, y))
  {
    var o0 := InitialOptions(config);
    RouteSpec(config, requestKeys, o0);
  }

  /** Keys are matched case-insensitively: "Seed" is moved into `options` like "seed". */
  lemma ControlParamCaseInsensitive(v: Value, requestKeys: set<string>)
    requires "seed" !in requestKeys
    ensures ConfigToCreateArgs([("Seed", v)], requestKeys) == map["options" := MappingValue(map["seed" := v])]
  {
    var config := [("Seed", v)];
    assert Lower("Seed") == "seed" by {
      assert Lower("Seed") == [LowerChar('S')] + Lower("eed");
      assert Lower("eed") == "eed";
    }
    assert Find(config, "options") == None;
    assert InitialOptions(config) == map[];
    assert config[..0] == [];
    assert "seed" in ControlParams;
    assert config[|config| - 1] == ("Seed", v);
    assert Route(config[..0], requestKeys, map[]) == (map[], map[]);
    assert Route(config, requestKeys, map[]) == (map[], map["seed" := v]);
    var (a, o) := Route(config, requestKeys, InitialOptions(config));
    assert o == map["seed" := v] && a == map[];
    assert o != map[] by { assert "seed" in o; }
  }
}
