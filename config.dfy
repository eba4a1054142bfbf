/**
 * The process configuration read from environment variables: the router
 * type, the council of models and its chairman, time-outs, the storage
 * back end, the feature flags and their keys, and Google Drive settings.
 *
 * `Parse` is the sequence of assignments at import (and in `reload_config`),
 * `Load` adds the router check done at import only, and `ConfigModule` is
 * the module's globals with `Reload` reassigning them one by one.
 */
module Config {
  import opened Wrappers
  import opened Text

  /** The environment variables the module reads. */
  datatype Var =
    | ROUTER_TYPE
    | OPENROUTER_API_KEY
    | OPENROUTER_API_URL
    | OLLAMA_HOST
    | COUNCIL_MODELS
    | MAX_COUNCIL_MODELS
    | CHAIRMAN_MODEL
    | DATA_DIR
    | DEFAULT_TIMEOUT
    | TITLE_GENERATION_TIMEOUT
    | DATABASE_TYPE
    | POSTGRESQL_URL
    | MYSQL_URL
    | AUTH_ENABLED
    | ENABLE_TAVILY
    | TAVILY_API_KEY
    | ENABLE_EXA
    | EXA_API_KEY
    | ENABLE_OPENAI_EMBEDDINGS
    | OPENAI_API_KEY
    | ENABLE_MEMORY
    | ENABLE_LANGGRAPH
    | GOOGLE_DRIVE_FOLDER_ID
    | GOOGLE_SERVICE_ACCOUNT_FILE

  /** The variable's name in the environment. */
  function Name(v: Var): string {
    match v
    case ROUTER_TYPE => "ROUTER_TYPE"
    case OPENROUTER_API_KEY => "OPENROUTER_API_KEY"
    case OPENROUTER_API_URL => "OPENROUTER_API_URL"
    case OLLAMA_HOST => "OLLAMA_HOST"
    case COUNCIL_MODELS => "COUNCIL_MODELS"
    case MAX_COUNCIL_MODELS => "MAX_COUNCIL_MODELS"
    case CHAIRMAN_MODEL => "CHAIRMAN_MODEL"
    case DATA_DIR => "DATA_DIR"
    case DEFAULT_TIMEOUT => "DEFAULT_TIMEOUT"
    case TITLE_GENERATION_TIMEOUT => "TITLE_GENERATION_TIMEOUT"
    case DATABASE_TYPE => "DATABASE_TYPE"
    case POSTGRESQL_URL => "POSTGRESQL_URL"
    case MYSQL_URL => "MYSQL_URL"
    case AUTH_ENABLED => "AUTH_ENABLED"
    case ENABLE_TAVILY => "ENABLE_TAVILY"
    case TAVILY_API_KEY => "TAVILY_API_KEY"
    case ENABLE_EXA => "ENABLE_EXA"
    case EXA_API_KEY => "EXA_API_KEY"
    case ENABLE_OPENAI_EMBEDDINGS => "ENABLE_OPENAI_EMBEDDINGS"
    case OPENAI_API_KEY => "OPENAI_API_KEY"
    case ENABLE_MEMORY => "ENABLE_MEMORY"
    case ENABLE_LANGGRAPH => "ENABLE_LANGGRAPH"
    case GOOGLE_DRIVE_FOLDER_ID => "GOOGLE_DRIVE_FOLDER_ID"
    case GOOGLE_SERVICE_ACCOUNT_FILE => "GOOGLE_SERVICE_ACCOUNT_FILE"
  }

  /** The environment after `.env` has been loaded, by variable: `os.getenv(Name(v))`. */
  type Env = map<Var, string>

  function Getenv(env: Env, name: Var): (r: Option<string>)
    ensures r.Some? <==> name in env
  {
    if name in env then Some(env[name]) else None
  }

  /** `os.getenv(name, default)`. */
  function GetenvOr(env: Env, name: Var, default: string): (r: string)
    ensures name !in env ==> r == default
  {
    if name in env then env[name] else default
  }

  /** Python truthiness of an optional string: set and not empty. */
  predicate Truthy(v: Option<string>) {
    v.Some? && v.value != ""
  }

  /** Python's `float()`, which the model takes as a parameter. */
  type FloatParser = string -> Option<real>

  /** The router type and the settings of the two back ends. */
  datatype Routing = Routing(
    routerType: string,
    openrouterApiKey: Option<string>,
    openrouterApiUrl: string,
    ollamaHost: string)

  /** The models that deliberate, how many may take part, and the one that writes the answer. */
  datatype Council = Council(models: seq<string>, maxModels: int, chairman: string)

  /** Request and title-generation time-outs, in seconds. */
  datatype Timeouts = Timeouts(defaultTimeout: real, titleGenerationTimeout: real)

  /** The conversation store back end and its connection strings. */
  datatype Storage = Storage(databaseType: string, postgresqlUrl: string, mysqlUrl: string)

  /** Authentication, the paid search tools, embeddings, memory and LangGraph. */
  datatype Features = Features(
    authEnabled: bool,
    enableTavily: bool,
    tavilyApiKey: string,
    enableExa: bool,
    exaApiKey: string,
    enableOpenaiEmbeddings: bool,
    openaiApiKey: string,
    enableMemory: bool,
    enableLanggraph: bool)

  datatype Drive = Drive(folderId: Option<string>, serviceAccountFile: string, enabled: bool)

  /** All module globals, grouped. */
  datatype Configuration = Configuration(
    routing: Routing,
    council: Council,
    dataDir: string,
    timeouts: Timeouts,
    storage: Storage,
    features: Features,
    drive: Drive)

  /** The results of the three conversions the module performs: one `int()` and two `float()`s. */
  datatype Conversions = Conversions(maxModels: int, defaultTimeout: real, titleGenerationTimeout: real)

  /** The `ValueError`s raised while the globals are computed. */
  datatype ConfigError =
    | InvalidInt(name: Var, text: string)
    | InvalidFloat(name: Var, text: string)
    | InvalidRouter(router: string)

  const DefaultApiUrl := "https://openrouter.ai/api/v1/chat/completions"
  const DefaultOllamaHost := "localhost:11434"
  const DefaultDataDir := "data/conversations"
  const DefaultServiceAccountFile := "credentials/google-service-account.json"

  const OllamaCouncil: seq<string> := ["deepseek-r1:latest", "llama3.1:latest", "qwen3:latest", "gemma3:latest"]
  const OpenRouterCouncil: seq<string> :=
    ["openai/gpt-5.1", "google/gemini-3-pro-preview", "anthropic/claude-sonnet-4.5", "x-ai/grok-4"]

  /** `os.getenv("ROUTER_TYPE", "openrouter").lower()`. */
  function RouterType(env: Env): string {
    Lower(GetenvOr(env, ROUTER_TYPE, "openrouter"))
  }

  predicate ValidRouter(router: string) {
    router == "openrouter" || router == "ollama"
  }

  function RoutingOf(env: Env): Routing {
    Routing(
      RouterType(env),
      Getenv(env, OPENROUTER_API_KEY),
      GetenvOr(env, OPENROUTER_API_URL, DefaultApiUrl),
      GetenvOr(env, OLLAMA_HOST, DefaultOllamaHost))
  }

  /** `[model.strip() for model in s.split(",")]`. */
  function ParseModelList(s: string): seq<string> {
    var pieces := Split(s, ',');
    seq(|pieces|, i requires 0 <= i < |pieces| => Strip(pieces[i]))
  }

  function DefaultCouncil(router: string): seq<string> {
    if router == "ollama" then OllamaCouncil else OpenRouterCouncil
  }

  function DefaultChairman(router: string): string {
    if router == "ollama" then "gemma3:latest" else "google/gemini-3-pro-preview"
  }

  /** `COUNCIL_MODELS` when it is set and not empty, else the router type's default list. */
  function CouncilModels(env: Env, router: string): seq<string> {
    var s := Getenv(env, COUNCIL_MODELS);
    if Truthy(s) then ParseModelList(s.value) else DefaultCouncil(router)
  }

  /** `CHAIRMAN_MODEL` when it is set and not empty, else the router type's default chairman. */
  function ChairmanModel(env: Env, router: string): string {
    var s := Getenv(env, CHAIRMAN_MODEL);
    if Truthy(s) then s.value else DefaultChairman(router)
  }

  /** `os.getenv(name, default).lower() == "true"`. */
  predicate Flag(env: Env, name: Var, default: string) {
    Lower(GetenvOr(env, name, default)) == "true"
  }

  function StorageOf(env: Env): Storage {
    Storage(
      Lower(GetenvOr(env, DATABASE_TYPE, "json")),
      GetenvOr(env, POSTGRESQL_URL, ""),
      GetenvOr(env, MYSQL_URL, ""))
  }

  function FeaturesOf(env: Env): Features {
    Features(
      Flag(env, AUTH_ENABLED, "false"),
      Flag(env, ENABLE_TAVILY, "false"),
      GetenvOr(env, TAVILY_API_KEY, ""),
      Flag(env, ENABLE_EXA, "false"),
      GetenvOr(env, EXA_API_KEY, ""),
      Flag(env, ENABLE_OPENAI_EMBEDDINGS, "false"),
      GetenvOr(env, OPENAI_API_KEY, ""),
      Flag(env, ENABLE_MEMORY, "true"),
      Flag(env, ENABLE_LANGGRAPH, "false"))
  }

  /** `GOOGLE_DRIVE_ENABLED = bool(GOOGLE_DRIVE_FOLDER_ID)`. */
  function DriveOf(env: Env): Drive {
    var folder := Getenv(env, GOOGLE_DRIVE_FOLDER_ID);
    Drive(folder, GetenvOr(env, GOOGLE_SERVICE_ACCOUNT_FILE, DefaultServiceAccountFile), Truthy(folder))
  }

  function MaxModelsText(env: Env): string {
    GetenvOr(env, MAX_COUNCIL_MODELS, "5")
  }

  function DefaultTimeoutText(env: Env): string {
    GetenvOr(env, DEFAULT_TIMEOUT, "120.0")
  }

  function TitleTimeoutText(env: Env): string {
    GetenvOr(env, TITLE_GENERATION_TIMEOUT, "180.0")
  }

  /** The three conversions in the order the module performs them; the first that fails is the error. */
  function Convert(env: Env, parseFloat: FloatParser): (r: Result<Conversions, ConfigError>)
    ensures r.Ok? <==>
      ParseInt(MaxModelsText(env)).Some? && parseFloat(DefaultTimeoutText(env)).Some?
      && parseFloat(TitleTimeoutText(env)).Some?
    ensures r.Ok? ==> ParseInt(MaxModelsText(env)) == Some(r.value.maxModels)
    ensures r.Ok? ==> parseFloat(DefaultTimeoutText(env)) == Some(r.value.defaultTimeout)
    ensures r.Ok? ==> parseFloat(TitleTimeoutText(env)) == Some(r.value.titleGenerationTimeout)
    ensures ParseInt(MaxModelsText(env)).None? ==> r == Err(InvalidInt(MAX_COUNCIL_MODELS, MaxModelsText(env)))
    ensures ParseInt(MaxModelsText(env)).Some? && parseFloat(DefaultTimeoutText(env)).None? ==>
      r == Err(InvalidFloat(DEFAULT_TIMEOUT, DefaultTimeoutText(env)))
    ensures (ParseInt(MaxModelsText(env)).Some? && parseFloat(DefaultTimeoutText(env)).Some?
      && parseFloat(TitleTimeoutText(env)).None?) ==>
      r == Err(InvalidFloat(TITLE_GENERATION_TIMEOUT, TitleTimeoutText(env)))
  {
    match ParseInt(MaxModelsText(env))
    case None => Err(InvalidInt(MAX_COUNCIL_MODELS, MaxModelsText(env)))
    case Some(maxModels) =>
      match parseFloat(DefaultTimeoutText(env))
      case None => Err(InvalidFloat(DEFAULT_TIMEOUT, DefaultTimeoutText(env)))
      case Some(timeout) =>
        match parseFloat(TitleTimeoutText(env))
        case None => Err(InvalidFloat(TITLE_GENERATION_TIMEOUT, TitleTimeoutText(env)))
        case Some(titleTimeout) => Ok(Conversions(maxModels, timeout, titleTimeout))
  }

  /** Every global, once the conversions have succeeded. */
  function Assemble(env: Env, v: Conversions): Configuration {
    var routing := RoutingOf(env);
    Configuration(
      routing,
      Council(CouncilModels(env, routing.routerType), v.maxModels, ChairmanModel(env, routing.routerType)),
      GetenvOr(env, DATA_DIR, DefaultDataDir),
      Timeouts(v.defaultTimeout, v.titleGenerationTimeout),
      StorageOf(env),
      FeaturesOf(env),
      DriveOf(env))
  }

  /** The globals computed from `env`, as both import and `reload_config` compute them. */
  function Parse(env: Env, parseFloat: FloatParser): (r: Result<Configuration, ConfigError>)
    ensures r.Ok? <==> Convert(env, parseFloat).Ok?
    ensures r.Ok? ==> r.value == Assemble(env, Convert(env, parseFloat).value)
    ensures r.Err? ==> r.error == Convert(env, parseFloat).error
  {
    match Convert(env, parseFloat)
    case Err(e) => Err(e)
    case Ok(v) => Ok(Assemble(env, v))
  }

  /** Importing the module: the globals, then the router check. */
  function Load(env: Env, parseFloat: FloatParser): (r: Result<Configuration, ConfigError>)
    ensures r.Ok? ==> ValidRouter(r.value.routing.routerType)
    ensures r.Ok? <==> Parse(env, parseFloat).Ok? && ValidRouter(RouterType(env))
  {
    match Parse(env, parseFloat)
    case Err(e) => Err(e)
    case Ok(c) => if ValidRouter(c.routing.routerType) then Ok(c) else Err(InvalidRouter(c.routing.routerType))
  }

  /** The text of the router error. */
  function RouterErrorMessage(router: string): (r: string)
    ensures StartsWith(r, "Invalid ROUTER_TYPE: " + router)
  {
    var head := "Invalid ROUTER_TYPE: " + router;
    assert (head + ". Must be 'openrouter' or 'ollama'")[..|head|] == head;
    head + ". Must be 'openrouter' or 'ollama'"
  }

  const MissingKeyMessage :=
    "OPENROUTER_API_KEY is required when ROUTER_TYPE=openrouter. "
    + "Get your key at https://openrouter.ai/ or use ROUTER_TYPE=ollama for local models."

  /** `validate_openrouter_config()`: the error it raises, if any. */
  function ValidateOpenRouterConfig(c: Configuration): (r: Option<string>)
    ensures r.Some? <==> c.routing.routerType == "openrouter" && !Truthy(c.routing.openrouterApiKey)
    ensures r.Some? ==> r.value == MissingKeyMessage
  {
    if c.routing.routerType == "openrouter" && !Truthy(c.routing.openrouterApiKey) then Some(MissingKeyMessage) else None
  }

  // ----- Properties of the parsed configuration -----

  /**
   * A non-empty `COUNCIL_MODELS` gives its comma-separated pieces in order,
   * one more than there are commas, each stripped of white space and free of
   * commas; empty pieces are kept.
   */
  lemma ModelListSpec(s: string)
    ensures |ParseModelList(s)| == Count(s, ',') + 1
    ensures forall i :: 0 <= i < |ParseModelList(s)| ==>
      ParseModelList(s)[i] == Strip(Split(s, ',')[i])
    ensures forall i :: 0 <= i < |ParseModelList(s)| ==>
      ',' !in ParseModelList(s)[i] && Strip(ParseModelList(s)[i]) == ParseModelList(s)[i]
  {
    var pieces := Split(s, ',');
    SplitSpec(s, ',');
    forall i | 0 <= i < |pieces|
      ensures ',' !in Strip(pieces[i]) && Strip(Strip(pieces[i])) == Strip(pieces[i])
    {
      StripIdempotent(pieces[i]);
      StripNoNewChar(pieces[i], ',');
    }
  }

  /** Stripping keeps a character out of a string that lacks it. */
  lemma StripNoNewChar(p: string, c: char)
    requires c !in p
    ensures c !in Strip(p)
  {
    var r, k := Strip(p), |p| - |TrimLeft(p)|;
    TrimLeftShape(p);
    StripSlice(p);
    assert p[k..k + |r|] == r;
    forall j | 0 <= j < |r| ensures r[j] != c {
      assert r[j] == p[k..k + |r|][j];
    }
  }

  lemma SplitExample(s: string)
    requires s == "a, b ,,c"
    ensures Split(s, ',') == ["a", " b ", "", "c"]
  {
    var pieces := ["a", " b ", "", "c"];
    assert Join(pieces, ",") == s;
    SplitJoin(pieces, ',');
  }

  /** The model list read from `s` strips each piece of its split. */
  lemma ModelListOfPieces(s: string, pieces: seq<string>)
    requires Split(s, ',') == pieces
    ensures ParseModelList(s) == seq(|pieces|, i requires 0 <= i < |pieces| => Strip(pieces[i]))
  {
  }

  lemma StripExamples()
    ensures Strip("a") == "a" && Strip(" b ") == "b" && Strip("") == "" && Strip("c") == "c"
  {
    StripUnpadded("a");
    StripUnpadded("c");
    StripSurrounded("b");
    assert " b " == [' '] + "b" + [' '];
  }

  /** `"a, b ,,c"` gives four models: pieces are stripped and the empty one is kept. */
  lemma ModelListExample(s: string)
    requires s == "a, b ,,c"
    ensures ParseModelList(s) == ["a", "b", "", "c"]
  {
    var pieces := ["a", " b ", "", "c"];
    StripExamples();
    var m := seq(|pieces|, i requires 0 <= i < |pieces| => Strip(pieces[i]));
    assert m[0] == "a" && m[1] == "b" && m[2] == "" && m[3] == "c";
    SplitExample(s);
    ModelListOfPieces(s, pieces);
  }

  /**
   * Each router type's default council has four models, and its default
   * chairman is one of them.
   */
  lemma DefaultsByRouter(router: string)
    ensures |DefaultCouncil(router)| == 4
    ensures DefaultChairman(router) in DefaultCouncil(router)
    ensures DefaultCouncil(router) == (if router == "ollama" then OllamaCouncil else OpenRouterCouncil)
  {
  }

  /**
   * The council is the parsed `COUNCIL_MODELS` when that is set and not
   * empty, and the router type's default list otherwise; likewise for the
   * chairman, and a default chairman sits in a default council.
   */
  lemma CouncilAndChairman(env: Env, v: Conversions)
    ensures var c := Assemble(env, v).council; var router := Assemble(env, v).routing.routerType;
      && (Truthy(Getenv(env, COUNCIL_MODELS)) ==> c.models == ParseModelList(env[COUNCIL_MODELS]))
      && (!Truthy(Getenv(env, COUNCIL_MODELS)) ==> c.models == DefaultCouncil(router))
      && (Truthy(Getenv(env, CHAIRMAN_MODEL)) ==> c.chairman == env[CHAIRMAN_MODEL])
      && (!Truthy(Getenv(env, CHAIRMAN_MODEL)) ==> c.chairman == DefaultChairman(router))
      && (!Truthy(Getenv(env, COUNCIL_MODELS)) && !Truthy(Getenv(env, CHAIRMAN_MODEL)) ==> c.chairman in c.models)
  {
    DefaultsByRouter(Assemble(env, v).routing.routerType);
  }

  /** The router type is read case-insensitively and stored in lower case. */
  lemma RouterLowered(env: Env, v: Conversions)
    ensures Assemble(env, v).routing.routerType == Lower(GetenvOr(env, ROUTER_TYPE, "openrouter"))
    ensures Lower(Assemble(env, v).routing.routerType) == Assemble(env, v).routing.routerType
  {
    LowerIdempotent(GetenvOr(env, ROUTER_TYPE, "openrouter"));
  }

  /**
   * Import fails with the router error exactly when every conversion
   * succeeds but the router type is neither "openrouter" nor "ollama";
   * a failed conversion is reported as it is.
   */
  lemma LoadRouterError(env: Env, parseFloat: FloatParser)
    ensures Load(env, parseFloat).Err? && Load(env, parseFloat).error.InvalidRouter?
      <==> Convert(env, parseFloat).Ok? && !ValidRouter(RouterType(env))
    ensures Convert(env, parseFloat).Err? ==> Load(env, parseFloat) == Err(Convert(env, parseFloat).error)
  {
  }

  /**
   * A flag is on exactly when its value, in any letter case, is "true";
   * an absent flag takes its default.
   */
  lemma FlagSpec(env: Env, name: Var, default: string)
    ensures name in env ==> (Flag(env, name, default) <==> Lower(env[name]) == "true")
    ensures name !in env ==> (Flag(env, name, default) <==> Lower(default) == "true")
  {
  }

  lemma FlagExamples()
    ensures Flag(map[ENABLE_EXA := "True"], ENABLE_EXA, "false")
    ensures Flag(map[ENABLE_EXA := "TRUE"], ENABLE_EXA, "false")
    ensures !Flag(map[ENABLE_EXA := "1"], ENABLE_EXA, "false")
    ensures !Flag(map[ENABLE_EXA := "yes"], ENABLE_EXA, "false")
    ensures !Flag(map[], ENABLE_EXA, "false")
  {
    assert Lower("TRUE") == "true";
    assert Lower("True") == "true";
    assert Lower("1") == "1";
    assert Lower("yes") == "yes";
    assert Lower("false") == "false";
  }

  /**
   * With none of the flags set, authentication, the paid tools, OpenAI
   * embeddings and LangGraph are off and memory is on.
   */
  lemma FlagsByDefault(env: Env)
    requires AUTH_ENABLED !in env && ENABLE_TAVILY !in env && ENABLE_EXA !in env
    requires ENABLE_OPENAI_EMBEDDINGS !in env && ENABLE_MEMORY !in env && ENABLE_LANGGRAPH !in env
    ensures var f := FeaturesOf(env);
      && !f.authEnabled && !f.enableTavily && !f.enableExa
      && !f.enableOpenaiEmbeddings && f.enableMemory && !f.enableLanggraph
  {
    assert Lower("false") == "false";
    assert Lower("true") == "true";
  }

  /** Google Drive is enabled exactly when a non-empty folder id is set. */
  lemma GoogleDriveEnabledIff(env: Env)
    ensures DriveOf(env).enabled <==> GOOGLE_DRIVE_FOLDER_ID in env && env[GOOGLE_DRIVE_FOLDER_ID] != ""
    ensures DriveOf(env).folderId == Getenv(env, GOOGLE_DRIVE_FOLDER_ID)
  {
  }

  /** `MAX_COUNCIL_MODELS` holds the natural number written in the variable, and is 5 when it is absent. */
  lemma MaxCouncilModelsRoundTrip(env: Env, parseFloat: FloatParser, n: nat)
    requires MAX_COUNCIL_MODELS in env ==> env[MAX_COUNCIL_MODELS] == NatToDecimal(n)
    requires MAX_COUNCIL_MODELS !in env ==> n == 5
    requires Convert(env, parseFloat).Ok?
    ensures Convert(env, parseFloat).value.maxModels == n
  {
    ParseIntRoundTrip(n);
    if MAX_COUNCIL_MODELS !in env {
      assert NatToDecimal(5) == "5";
    }
  }

  /** A council size written with more digits than `int` converts is an `InvalidInt` error, like any other malformed size. */
  lemma MaxCouncilModelsDigitLimit(env: Env, parseFloat: FloatParser, n: nat)
    requires MAX_COUNCIL_MODELS in env && env[MAX_COUNCIL_MODELS] == NatToDecimal(n)
    requires |NatToDecimal(n)| > MaxStrDigits
    ensures Convert(env, parseFloat) == Err(InvalidInt(MAX_COUNCIL_MODELS, NatToDecimal(n)))
  {
    ParseIntRoundTrip(n);
  }

  /** A float parser that at least reads the two default time-outs. */
  predicate ReadsDefaultTimeouts(parseFloat: FloatParser) {
    parseFloat("120.0") == Some(120.0) && parseFloat("180.0") == Some(180.0)
  }

  /** With the variables absent, the conversions read the documented defaults. */
  lemma DefaultConversions(env: Env, parseFloat: FloatParser)
    requires ReadsDefaultTimeouts(parseFloat)
    requires MAX_COUNCIL_MODELS !in env && DEFAULT_TIMEOUT !in env && TITLE_GENERATION_TIMEOUT !in env
    ensures Convert(env, parseFloat) == Ok(Conversions(5, 120.0, 180.0))
  {
    ParseIntRoundTrip(5);
    assert NatToDecimal(5) == "5";
  }

  /** The globals assembled from the empty environment and the default conversions. */
  lemma EmptyAssembly()
    ensures var c := Assemble(map[], Conversions(5, 120.0, 180.0));
      && c.routing == Routing("openrouter", None, DefaultApiUrl, DefaultOllamaHost)
      && c.council == Council(OpenRouterCouncil, 5, "google/gemini-3-pro-preview")
      && c.dataDir == DefaultDataDir
      && c.timeouts == Timeouts(120.0, 180.0)
      && c.storage == Storage("json", "", "")
      && c.drive == Drive(None, DefaultServiceAccountFile, false)
  {
    assert Lower("openrouter") == "openrouter";
    assert Lower("json") == "json";
  }

  /** The empty environment gives the documented defaults, and import accepts it. */
  lemma EmptyEnvironmentDefaults(parseFloat: FloatParser)
    requires ReadsDefaultTimeouts(parseFloat)
    ensures Load(map[], parseFloat).Ok?
    ensures Load(map[], parseFloat).value == Assemble(map[], Conversions(5, 120.0, 180.0))
    ensures ValidateOpenRouterConfig(Load(map[], parseFloat).value) == Some(MissingKeyMessage)
  {
    var env: Env := map[];
    DefaultConversions(env, parseFloat);
    EmptyAssembly();
  }

  /**
   * Whenever import succeeds, `reload_config` computes the same globals
   * from the same environment.
   */
  lemma ReloadAgreesWithImport(env: Env, parseFloat: FloatParser)
    requires Load(env, parseFloat).Ok?
    ensures Parse(env, parseFloat) == Load(env, parseFloat)
  {
  }

  /** An environment import rejects but `reload_config` accepts: the router check is not repeated. */
  lemma ReloadSkipsRouterCheck(parseFloat: FloatParser)
    requires ReadsDefaultTimeouts(parseFloat)
    ensures var env := map[ROUTER_TYPE := "Local"];
      && Load(env, parseFloat) == Err(InvalidRouter("local"))
      && Parse(env, parseFloat).Ok?
  {
    var env := map[ROUTER_TYPE := "Local"];
    DefaultConversions(env, parseFloat);
    assert Lower("Local") == "local";
  }

  // ----- The sections of `reload_config` -----

  /** Router, OpenRouter, Ollama and council list, reassigned over `c`. */
  function WithRouting(c: Configuration, env: Env): Configuration {
    var routing := RoutingOf(env);
    c.(routing := routing, council := c.council.(models := CouncilModels(env, routing.routerType)))
  }

  /** Council size, chairman and data directory, reassigned over `c`. */
  function WithCouncilSize(c: Configuration, env: Env, maxModels: int): Configuration {
    c.(council := Council(c.council.models, maxModels, ChairmanModel(env, c.routing.routerType)),
       dataDir := GetenvOr(env, DATA_DIR, DefaultDataDir))
  }

  function WithTimeout(c: Configuration, timeout: real): Configuration {
    c.(timeouts := c.timeouts.(defaultTimeout := timeout))
  }

  /** Everything from the title time-out on, reassigned over `c`. */
  function WithRest(c: Configuration, env: Env, titleTimeout: real): Configuration {
    c.(timeouts := c.timeouts.(titleGenerationTimeout := titleTimeout),
       storage := StorageOf(env), features := FeaturesOf(env), drive := DriveOf(env))
  }

  /** Running all sections, from any earlier globals, computes exactly the assembled configuration. */
  lemma SectionsAssemble(c: Configuration, env: Env, v: Conversions)
    ensures WithRest(WithTimeout(WithCouncilSize(WithRouting(c, env), env, v.maxModels), v.defaultTimeout), env, v.titleGenerationTimeout)
      == Assemble(env, v)
  {
  }

  /**
   * The part of the globals a failed reload writes depends only on the
   * environment, so repeating that reload changes nothing further.
   */
  lemma PartialReloadsIdempotent(c: Configuration, env: Env, maxModels: int, timeout: real)
    ensures WithRouting(WithRouting(c, env), env) == WithRouting(c, env)
    ensures var r := WithCouncilSize(WithRouting(c, env), env, maxModels);
      WithCouncilSize(WithRouting(r, env), env, maxModels) == r
    ensures var r := WithTimeout(WithCouncilSize(WithRouting(c, env), env, maxModels), timeout);
      WithTimeout(WithCouncilSize(WithRouting(r, env), env, maxModels), timeout) == r
  {
  }

  // ----- The module globals -----

  /**
   * The module's globals, held in their groups. `reload_config` assigns
   * them one at a time; consecutive assignments with no conversion between
   * them are written here as one assignment of their group.
   */
  class ConfigModule {
    var routing: Routing
    var council: Council
    var dataDir: string
    var timeouts: Timeouts
    var storage: Storage
    var features: Features
    var drive: Drive

    /** The current values of all globals. */
    function Snapshot(): Configuration
      reads this
    {
      Configuration(routing, council, dataDir, timeouts, storage, features, drive)
    }

    /** The globals as import left them. */
    constructor (c: Configuration)
      ensures Snapshot() == c
    {
      routing, council, dataDir, timeouts := c.routing, c.council, c.dataDir, c.timeouts;
      storage, features, drive := c.storage, c.features, c.drive;
    }

    /**
     * `reload_config()`: every global is reassigned in order from `env`.
     * On success the globals are exactly `Parse(env, parseFloat)`; a failed
     * conversion raises its error and leaves the globals assigned before it
     * updated and the later ones as they were.
     */
    method Reload(env: Env, parseFloat: FloatParser) returns (err: Option<ConfigError>)
      modifies this
      ensures err.None? <==> Parse(env, parseFloat).Ok?
      ensures err.None? ==> Snapshot() == Parse(env, parseFloat).value
      ensures err.Some? ==> Parse(env, parseFloat) == Err(err.value)
      ensures ParseInt(MaxModelsText(env)).None? ==> Snapshot() == WithRouting(old(Snapshot()), env)
      ensures ParseInt(MaxModelsText(env)).Some? && parseFloat(DefaultTimeoutText(env)).None? ==>
        Snapshot() == WithCouncilSize(WithRouting(old(Snapshot()), env), env, ParseInt(MaxModelsText(env)).value)
      ensures (ParseInt(MaxModelsText(env)).Some? && parseFloat(DefaultTimeoutText(env)).Some?
        && parseFloat(TitleTimeoutText(env)).None?) ==>
        Snapshot() == WithTimeout(WithCouncilSize(WithRouting(old(Snapshot()), env), env, ParseInt(MaxModelsText(env)).value),
          parseFloat(DefaultTimeoutText(env)).value)
    {
      ReloadRouting(env);

      var maxModels := ParseInt(MaxModelsText(env));
      if maxModels.None? {
        return Some(InvalidInt(MAX_COUNCIL_MODELS, MaxModelsText(env)));
      }
      err := ReloadAfterInt(env, parseFloat, maxModels.value);
      if err.None? {
        SectionsAssemble(old(Snapshot()), env, Convert(env, parseFloat).value);
      }
    }

    /** What `reload_config` does once the council size has been converted: the chairman, the data directory, both time-outs and everything after them. */
    method ReloadAfterInt(env: Env, parseFloat: FloatParser, maxModels: int) returns (err: Option<ConfigError>)
      modifies this
      ensures parseFloat(DefaultTimeoutText(env)).None? ==>
        err == Some(InvalidFloat(DEFAULT_TIMEOUT, DefaultTimeoutText(env)))
        && Snapshot() == WithCouncilSize(old(Snapshot()), env, maxModels)
      ensures (parseFloat(DefaultTimeoutText(env)).Some? && parseFloat(TitleTimeoutText(env)).None?) ==>
        err == Some(InvalidFloat(TITLE_GENERATION_TIMEOUT, TitleTimeoutText(env)))
        && Snapshot() == WithTimeout(WithCouncilSize(old(Snapshot()), env, maxModels), parseFloat(DefaultTimeoutText(env)).value)
      ensures (parseFloat(DefaultTimeoutText(env)).Some? && parseFloat(TitleTimeoutText(env)).Some?) ==>
        err == None
        && Snapshot() == WithRest(WithTimeout(WithCouncilSize(old(Snapshot()), env, maxModels),
          parseFloat(DefaultTimeoutText(env)).value), env, parseFloat(TitleTimeoutText(env)).value)
    {
      ReloadCouncilSize(env, maxModels);

      var timeout := parseFloat(GetenvOr(env, DEFAULT_TIMEOUT, "120.0"));
      if timeout.None? {
        return Some(InvalidFloat(DEFAULT_TIMEOUT, DefaultTimeoutText(env)));
      }
      timeouts := timeouts.(defaultTimeout := timeout.value);
      var titleTimeout := parseFloat(GetenvOr(env, TITLE_GENERATION_TIMEOUT, "180.0"));
      if titleTimeout.None? {
        return Some(InvalidFloat(TITLE_GENERATION_TIMEOUT, TitleTimeoutText(env)));
      }
      ReloadRest(env, titleTimeout.value);
      return None;
    }

    /** `reload_config`'s first part: `ROUTER_TYPE`, the OpenRouter and Ollama settings and `COUNCIL_MODELS`. */
    method ReloadRouting(env: Env)
      modifies this
      ensures Snapshot() == WithRouting(old(Snapshot()), env)
    {
      routing := Routing(
        Lower(GetenvOr(env, ROUTER_TYPE, "openrouter")),
        Getenv(env, OPENROUTER_API_KEY),
        GetenvOr(env, OPENROUTER_API_URL, DefaultApiUrl),
        GetenvOr(env, OLLAMA_HOST, DefaultOllamaHost));
      var councilText := Getenv(env, COUNCIL_MODELS);
      if Truthy(councilText) {
        council := council.(models := ParseModelList(councilText.value));
      } else if routing.routerType == "ollama" {
        council := council.(models := OllamaCouncil);
      } else {
        council := council.(models := OpenRouterCouncil);
      }
    }

    /** The converted `MAX_COUNCIL_MODELS`, then `CHAIRMAN_MODEL` and `DATA_DIR`. */
    method ReloadCouncilSize(env: Env, maxModels: int)
      modifies this
      ensures Snapshot() == WithCouncilSize(old(Snapshot()), env, maxModels)
    {
      council := council.(maxModels := maxModels);
      var chairman := Getenv(env, CHAIRMAN_MODEL);
      if Truthy(chairman) {
        council := council.(chairman := chairman.value);
      } else if routing.routerType == "ollama" {
        council := council.(chairman := "gemma3:latest");
      } else {
        council := council.(chairman := "google/gemini-3-pro-preview");
      }
      dataDir := GetenvOr(env, DATA_DIR, DefaultDataDir);
    }

    /** The converted `TITLE_GENERATION_TIMEOUT`, then the storage settings, the feature flags and keys, and the Google Drive settings. */
    method ReloadRest(env: Env, titleTimeout: real)
      modifies this
      ensures Snapshot() == WithRest(old(Snapshot()), env, titleTimeout)
    {
      timeouts := timeouts.(titleGenerationTimeout := titleTimeout);
      storage := Storage(
        Lower(GetenvOr(env, DATABASE_TYPE, "json")),
        GetenvOr(env, POSTGRESQL_URL, ""),
        GetenvOr(env, MYSQL_URL, ""));
      features := Features(
        Flag(env, AUTH_ENABLED, "false"),
        Flag(env, ENABLE_TAVILY, "false"),
        GetenvOr(env, TAVILY_API_KEY, ""),
        Flag(env, ENABLE_EXA, "false"),
        GetenvOr(env, EXA_API_KEY, ""),
        Flag(env, ENABLE_OPENAI_EMBEDDINGS, "false"),
        GetenvOr(env, OPENAI_API_KEY, ""),
        Flag(env, ENABLE_MEMORY, "true"),
        Flag(env, ENABLE_LANGGRAPH, "false"));
      var folder := Getenv(env, GOOGLE_DRIVE_FOLDER_ID);
      drive := Drive(folder, GetenvOr(env, GOOGLE_SERVICE_ACCOUNT_FILE, DefaultServiceAccountFile), Truthy(folder));
    }
  }

  /** Reloading twice from the same environment leaves what reloading once left, on success and on failure. */
  method ReloadTwice(m: ConfigModule, env: Env, parseFloat: FloatParser)
    returns (first: Option<ConfigError>, once: Configuration, second: Option<ConfigError>)
    modifies m
    ensures first == second && m.Snapshot() == once
    ensures first.None? ==> Parse(env, parseFloat).Ok? && m.Snapshot() == Parse(env, parseFloat).value
  {
    first := m.Reload(env, parseFloat);
    once := m.Snapshot();
    var n := if ParseInt(MaxModelsText(env)).Some? then ParseInt(MaxModelsText(env)).value else 0;
    var t := if parseFloat(DefaultTimeoutText(env)).Some? then parseFloat(DefaultTimeoutText(env)).value else 0.0;
    PartialReloadsIdempotent(old(m.Snapshot()), env, n, t);
    second := m.Reload(env, parseFloat);
  }
}
