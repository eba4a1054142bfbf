/**
 * The runtime settings record (prompt templates, per-stage temperatures
 * and web-search options), its defaults and bounds, the validation that
 * builds it from a JSON object, and the store that keeps it in the
 * settings file: get, save, partial update and reset.
 */
module RuntimeSettings {
  import opened Wrappers
  import opened Json

  const DefaultStage1Template: string :=
    "{full_query}"

  /**
   * The opening of the default stage-2 prompt, up to its last placeholder;
   * the ranking instructions that follow it are not part of this model.
   */
  const DefaultStage2Template: string :=
    "You are evaluating different responses to the following question:\n"
    + "\n"
    + "Question: {user_query}\n"
    + "\n"
    + "Here are the responses from different models (anonymized):\n"
    + "\n"
    + "{responses_text}\n"

  /**
   * The opening of the default stage-3 (chairman) prompt, up to its last
   * placeholder; the synthesis instructions that follow it are not part of
   * this model.
   */
  const DefaultStage3Template: string :=
    "You are the Chairman of an LLM-TTCC-TEAM-PRO council."
    + " Multiple AI models have provided responses to a user's question,"
    + " and then ranked each other's responses.\n"
    + "\n"
    + "Original Question: {user_query}\n"
    + "\n"
    + "STAGE 1 - Individual Responses:\n"
    + "{stage1_text}\n"
    + "\n"
    + "{rankings_block}{tools_text}\n"

  datatype Settings = Settings(
    stage1PromptTemplate: string,
    stage2PromptTemplate: string,
    stage3PromptTemplate: string,
    councilTemperature: real,
    stage2Temperature: real,
    chairmanTemperature: real,
    webSearchProvider: string,
    webMaxResults: int,
    webFullContentResults: int)

  /** The value `RuntimeSettings()` builds when no field is given. */
  const Defaults: Settings := Settings(
    DefaultStage1Template, DefaultStage2Template, DefaultStage3Template,
    0.5, 0.3, 0.4,
    "duckduckgo", 5, 0)

  /** The nine fields, in declaration order. */
  datatype Field =
    | Stage1PromptTemplate | Stage2PromptTemplate | Stage3PromptTemplate
    | CouncilTemperature | Stage2Temperature | ChairmanTemperature
    | WebSearchProvider | WebMaxResults | WebFullContentResults

  const AllFields: seq<Field> := [
    Stage1PromptTemplate, Stage2PromptTemplate, Stage3PromptTemplate,
    CouncilTemperature, Stage2Temperature, ChairmanTemperature,
    WebSearchProvider, WebMaxResults, WebFullContentResults]

  /** Where a field stands in `AllFields`. */
  function Position(f: Field): (i: nat)
    ensures i < |AllFields| && AllFields[i] == f
  {
    match f
    case Stage1PromptTemplate => 0
    case Stage2PromptTemplate => 1
    case Stage3PromptTemplate => 2
    case CouncilTemperature => 3
    case Stage2Temperature => 4
    case ChairmanTemperature => 5
    case WebSearchProvider => 6
    case WebMaxResults => 7
    case WebFullContentResults => 8
  }

  /** The key of a field in the JSON object. */
  function Key(f: Field): string {
    match f
    case Stage1PromptTemplate => "stage1_prompt_template"
    case Stage2PromptTemplate => "stage2_prompt_template"
    case Stage3PromptTemplate => "stage3_prompt_template"
    case CouncilTemperature => "council_temperature"
    case Stage2Temperature => "stage2_temperature"
    case ChairmanTemperature => "chairman_temperature"
    case WebSearchProvider => "web_search_provider"
    case WebMaxResults => "web_max_results"
    case WebFullContentResults => "web_full_content_results"
  }

  /** The declared type of a field: `str`, `float` or `int`. */
  datatype Kind = StrKind | FloatKind | IntKind

  function KindOf(f: Field): Kind {
    match f
    case Stage1PromptTemplate | Stage2PromptTemplate | Stage3PromptTemplate | WebSearchProvider => StrKind
    case CouncilTemperature | Stage2Temperature | ChairmanTemperature => FloatKind
    case WebMaxResults | WebFullContentResults => IntKind
  }

  predicate HasKind(k: Kind, j: Json) {
    match k
    case StrKind => j.JStr?
    case FloatKind => j.JReal?
    case IntKind => j.JInt?
  }

  /** A field's value as `model_dump` writes it. */
  function FieldValue(s: Settings, f: Field): (j: Json)
    ensures HasKind(KindOf(f), j)
  {
    match f
    case Stage1PromptTemplate => JStr(s.stage1PromptTemplate)
    case Stage2PromptTemplate => JStr(s.stage2PromptTemplate)
    case Stage3PromptTemplate => JStr(s.stage3PromptTemplate)
    case CouncilTemperature => JReal(s.councilTemperature)
    case Stage2Temperature => JReal(s.stage2Temperature)
    case ChairmanTemperature => JReal(s.chairmanTemperature)
    case WebSearchProvider => JStr(s.webSearchProvider)
    case WebMaxResults => JInt(s.webMaxResults)
    case WebFullContentResults => JInt(s.webFullContentResults)
  }

  /** The bounds a field carries: temperatures in [0, 2], result counts in [1, 10] and [0, 10]. */
  predicate InBounds(f: Field, j: Json) {
    match f
    case CouncilTemperature | Stage2Temperature | ChairmanTemperature => j.JReal? && 0.0 <= j.r <= 2.0
    case WebMaxResults => j.JInt? && 1 <= j.i <= 10
    case WebFullContentResults => j.JInt? && 0 <= j.i <= 10
    case _ => true
  }

  /** Every field within its bounds: what construction accepts. */
  predicate Valid(s: Settings) {
    && 0.0 <= s.councilTemperature <= 2.0
    && 0.0 <= s.stage2Temperature <= 2.0
    && 0.0 <= s.chairmanTemperature <= 2.0
    && 1 <= s.webMaxResults <= 10
    && 0 <= s.webFullContentResults <= 10
  }

  /** `model_dump`: the settings as a JSON object with one entry per field. */
  function Dump(s: Settings): (m: map<string, Json>)
    ensures forall f :: Key(f) in m && m[Key(f)] == FieldValue(s, f)
  {
    map[
      "stage1_prompt_template" := JStr(s.stage1PromptTemplate),
      "stage2_prompt_template" := JStr(s.stage2PromptTemplate),
      "stage3_prompt_template" := JStr(s.stage3PromptTemplate),
      "council_temperature" := JReal(s.councilTemperature),
      "stage2_temperature" := JReal(s.stage2Temperature),
      "chairman_temperature" := JReal(s.chairmanTemperature),
      "web_search_provider" := JStr(s.webSearchProvider),
      "web_max_results" := JInt(s.webMaxResults),
      "web_full_content_results" := JInt(s.webFullContentResults)
    ]
  }

  /**
   * The value a field of the declared kind takes from a JSON value: a
   * string for `str`, a number for `float` (an integer is widened), an
   * integer for `int`; `None` when the value has the wrong type.
   */
  function Coerce(k: Kind, j: Json): (r: Option<Json>)
    ensures r.Some? ==> HasKind(k, r.value)
    ensures HasKind(k, j) ==> r == Some(j)
  {
    match k
    case StrKind => if j.JStr? then Some(j) else None
    case FloatKind => if j.JReal? then Some(j) else if j.JInt? then Some(JReal(j.i as real)) else None
    case IntKind => if j.JInt? then Some(j) else None
  }

  /** The value a field gets from the keyword arguments: the coerced argument, or the default when absent. */
  function Resolve(raw: map<string, Json>, f: Field): (r: Option<Json>)
    ensures r.Some? ==> HasKind(KindOf(f), r.value)
  {
    if Key(f) in raw then Coerce(KindOf(f), raw[Key(f)]) else Some(FieldValue(Defaults, f))
  }

  predicate FieldAccepted(raw: map<string, Json>, f: Field) {
    Resolve(raw, f).Some? && InBounds(f, Resolve(raw, f).value)
  }

  /** The first field, in declaration order, that construction rejects. */
  function FirstRejected(raw: map<string, Json>, fields: seq<Field>): (r: Option<Field>)
    ensures r.None? <==> forall i :: 0 <= i < |fields| ==> FieldAccepted(raw, fields[i])
    ensures r.Some? ==> r.value in fields && !FieldAccepted(raw, r.value)
  {
    if fields == [] then None
    else if !FieldAccepted(raw, fields[0]) then Some(fields[0])
    else FirstRejected(raw, fields[1..])
  }

  /** The resolved value of a field, with the default standing in for a rejected one. */
  function Value(raw: map<string, Json>, f: Field): (j: Json)
    ensures HasKind(KindOf(f), j)
  {
    var r := Resolve(raw, f);
    if r.Some? then r.value else FieldValue(Defaults, f)
  }

  /** The record holding each field's resolved value. */
  function Build(raw: map<string, Json>): Settings {
    Settings(
      Value(raw, Stage1PromptTemplate).s,
      Value(raw, Stage2PromptTemplate).s,
      Value(raw, Stage3PromptTemplate).s,
      Value(raw, CouncilTemperature).r,
      Value(raw, Stage2Temperature).r,
      Value(raw, ChairmanTemperature).r,
      Value(raw, WebSearchProvider).s,
      Value(raw, WebMaxResults).i,
      Value(raw, WebFullContentResults).i)
  }

  /**
   * `RuntimeSettings(**raw)`: every field from its keyword argument or its
   * default, keys that are not fields ignored; a field of the wrong type or
   * out of bounds is a validation error naming the first such field.
   */
  function Construct(raw: map<string, Json>): Result<Settings, Field> {
    match FirstRejected(raw, AllFields)
    case Some(f) => Err(f)
    case None => Ok(Build(raw))
  }

  /** What the settings file holds: nothing, something that cannot be read or parsed, or parsed JSON. */
  datatype FileState = Missing | Unreadable | Contents(json: Json)

  /**
   * `get_runtime_settings`: the settings in the file, or the defaults when
   * the file is missing, unreadable, falsy, not an object, or fails validation.
   */
  function Load(file: FileState): Settings {
    match file
    case Missing => Defaults
    case Unreadable => Defaults
    case Contents(j) =>
      if !Truthy(j) then Defaults
      else if !j.JObject? then Defaults
      else (match Construct(j.fields)
            case Ok(s) => s
            case Err(_) => Defaults)
  }

  /** What `save_runtime_settings` leaves in the file. */
  function Saved(s: Settings): FileState {
    Contents(JObject(Dump(s)))
  }

  /** The outcome of `update_runtime_settings`: the patch laid over the dump of the current settings, validated. */
  function Merge(current: Settings, patch: map<string, Json>): Result<Settings, Field> {
    Construct(Dump(current) + patch)
  }

  lemma DefaultsValid()
    ensures Valid(Defaults)
    ensures Defaults.stage1PromptTemplate == "{full_query}"
    ensures Defaults.councilTemperature == 0.5 && Defaults.stage2Temperature == 0.3 && Defaults.chairmanTemperature == 0.4
    ensures Defaults.webSearchProvider == "duckduckgo" && Defaults.webMaxResults == 5 && Defaults.webFullContentResults == 0
    ensures Defaults.stage2PromptTemplate != "" && Defaults.stage3PromptTemplate != ""
  {
  }

  /** Two settings with the same field values are the same. */
  lemma FieldsDetermine(a: Settings, b: Settings)
    requires forall f :: FieldValue(a, f) == FieldValue(b, f)
    ensures a == b
  {
    assert FieldValue(a, Stage1PromptTemplate) == FieldValue(b, Stage1PromptTemplate);
    assert FieldValue(a, Stage2PromptTemplate) == FieldValue(b, Stage2PromptTemplate);
    assert FieldValue(a, Stage3PromptTemplate) == FieldValue(b, Stage3PromptTemplate);
    assert FieldValue(a, CouncilTemperature) == FieldValue(b, CouncilTemperature);
    assert FieldValue(a, Stage2Temperature) == FieldValue(b, Stage2Temperature);
    assert FieldValue(a, ChairmanTemperature) == FieldValue(b, ChairmanTemperature);
    assert FieldValue(a, WebSearchProvider) == FieldValue(b, WebSearchProvider);
    assert FieldValue(a, WebMaxResults) == FieldValue(b, WebMaxResults);
    assert FieldValue(a, WebFullContentResults) == FieldValue(b, WebFullContentResults);
  }

  lemma AcceptedInAllFields(raw: map<string, Json>)
    requires FirstRejected(raw, AllFields).None?
    ensures forall f :: FieldAccepted(raw, f)
  {
    forall f ensures FieldAccepted(raw, f) {
      assert AllFields[Position(f)] == f;
    }
  }

  /**
   * Construction succeeds exactly when every field is accepted; what it
   * builds is valid and holds, field by field, the resolved value.
   */
  lemma ConstructSpec(raw: map<string, Json>)
    ensures Construct(raw).Ok? <==> forall f :: FieldAccepted(raw, f)
    ensures Construct(raw).Ok? ==> Valid(Construct(raw).value)
    ensures Construct(raw).Ok? ==> forall f :: Resolve(raw, f) == Some(FieldValue(Construct(raw).value, f))
    ensures Construct(raw).Err? ==> !FieldAccepted(raw, Construct(raw).error)
  {
    if FirstRejected(raw, AllFields).None? {
      AcceptedInAllFields(raw);
      BuildResolved(raw);
      BuildValid(raw);
    }
  }

  /** With every field accepted, the built record holds each field's resolved value. */
  lemma BuildResolved(raw: map<string, Json>)
    requires forall f :: FieldAccepted(raw, f)
    ensures forall f :: Resolve(raw, f) == Some(FieldValue(Build(raw), f))
  {
    forall f ensures Resolve(raw, f) == Some(FieldValue(Build(raw), f)) {
      assert FieldAccepted(raw, f);
    }
  }

  /** With every field accepted, the built record is within all bounds. */
  lemma BuildValid(raw: map<string, Json>)
    requires forall f :: FieldAccepted(raw, f)
    ensures Valid(Build(raw))
  {
    assert FieldAccepted(raw, CouncilTemperature) && FieldAccepted(raw, Stage2Temperature);
    assert FieldAccepted(raw, ChairmanTemperature) && FieldAccepted(raw, WebMaxResults);
    assert FieldAccepted(raw, WebFullContentResults);
  }

  /** A valid value's fields are each within their bounds. */
  lemma ValidFieldsInBounds(s: Settings)
    requires Valid(s)
    ensures forall f :: InBounds(f, FieldValue(s, f))
  {
  }

  /** Building from a dump gives back the same settings. */
  lemma ConstructDump(s: Settings)
    requires Valid(s)
    ensures Construct(Dump(s)) == Ok(s)
  {
    ValidFieldsInBounds(s);
    var raw := Dump(s);
    assert forall f :: FieldAccepted(raw, f);
    ConstructSpec(raw);
    FieldsDetermine(Construct(raw).value, s);
  }

  /** Whatever the file holds, loading never fails and gives valid settings. */
  lemma LoadValid(file: FileState)
    ensures Valid(Load(file))
  {
    DefaultsValid();
    if file.Contents? && file.json.JObject? {
      ConstructSpec(file.json.fields);
    }
  }

  /** A missing, unreadable, falsy or non-object file loads as the defaults. */
  lemma LoadFallsBack(file: FileState)
    requires file.Missing? || file.Unreadable? || !Truthy(file.json) || !file.json.JObject?
    ensures Load(file) == Defaults
  {
  }

  /** Saving and then loading gives back what was saved. */
  lemma LoadSaved(s: Settings)
    requires Valid(s)
    ensures Load(Saved(s)) == s
  {
    ConstructDump(s);
    assert Key(Stage1PromptTemplate) in Dump(s);
  }

  /**
   * A successful update holds the patch's value in every patched field and
   * the current value in every other field; an update that fails names a
   * field whose merged value is rejected.
   */
  lemma MergeSpec(current: Settings, patch: map<string, Json>)
    ensures var r := Merge(current, patch);
      && (r.Ok? ==> forall f :: Key(f) !in patch ==> FieldValue(r.value, f) == FieldValue(current, f))
      && (r.Ok? ==> forall f :: Key(f) in patch ==> Coerce(KindOf(f), patch[Key(f)]) == Some(FieldValue(r.value, f)))
      && (r.Err? ==> !FieldAccepted(Dump(current) + patch, r.error))
  {
    var raw := Dump(current) + patch;
    ConstructSpec(raw);
    if Merge(current, patch).Ok? {
      var u := Merge(current, patch).value;
      forall f | Key(f) !in patch ensures FieldValue(u, f) == FieldValue(current, f) {
        assert raw[Key(f)] == FieldValue(current, f);
        assert Resolve(raw, f) == Coerce(KindOf(f), FieldValue(current, f));
      }
    }
  }

  /** An empty patch leaves valid settings as they are. */
  lemma MergeNothing(current: Settings)
    requires Valid(current)
    ensures Merge(current, map[]) == Ok(current)
  {
    assert Dump(current) + map[] == Dump(current);
    ConstructDump(current);
  }

  /** Keys that name no field change nothing. */
  lemma MergeIgnoresUnknownKeys(current: Settings, patch: map<string, Json>, k: string, v: Json)
    requires forall f :: Key(f) != k
    ensures Merge(current, patch[k := v]) == Merge(current, patch)
  {
    var a := Dump(current) + patch[k := v];
    var b := Dump(current) + patch;
    assert forall f :: Resolve(a, f) == Resolve(b, f) by {
      forall f ensures Resolve(a, f) == Resolve(b, f) {
        assert (Key(f) in a <==> Key(f) in b) && (Key(f) in a ==> a[Key(f)] == b[Key(f)]);
      }
    }
    assert forall fields: seq<Field> :: FirstRejected(a, fields) == FirstRejected(b, fields) by {
      forall fields: seq<Field> ensures FirstRejected(a, fields) == FirstRejected(b, fields) {
        FirstRejectedSame(a, b, fields);
      }
    }
  }

  lemma {:induction false} FirstRejectedSame(a: map<string, Json>, b: map<string, Json>, fields: seq<Field>)
    requires forall f :: Resolve(a, f) == Resolve(b, f)
    ensures FirstRejected(a, fields) == FirstRejected(b, fields)
    decreases |fields|
  {
    if fields != [] {
      FirstRejectedSame(a, b, fields[1..]);
    }
  }

  /** The settings file, and the operations that read and replace it. */
  class SettingsStore {
    var file: FileState

    constructor(initial: FileState)
      ensures file == initial
    {
      file := initial;
    }

    /** `get_runtime_settings`. */
    method Get() returns (s: Settings)
      ensures s == Load(file) && Valid(s)
    {
      LoadValid(file);
      s := Load(file);
    }

    /** `save_runtime_settings`: the file is replaced by the dump of `s`. */
    method Save(s: Settings)
      modifies this
      ensures file == Saved(s)
      ensures Valid(s) ==> Load(file) == s
    {
      file := Contents(JObject(Dump(s)));
      if Valid(s) { LoadSaved(s); }
    }

    /**
     * `update_runtime_settings`: read the current settings, lay the patch
     * over them and validate; on success save and return the result, on a
     * validation error leave the file as it was.
     */
    method Update(patch: map<string, Json>) returns (r: Result<Settings, Field>)
      modifies this
      ensures r == Merge(Load(old(file)), patch)
      ensures r.Ok? ==> file == Saved(r.value) && Load(file) == r.value
      ensures r.Err? ==> file == old(file)
    {
      var current := Get();
      var merged := Dump(current) + patch;
      r := Construct(merged);
      if r.Ok? {
        ConstructSpec(merged);
        Save(r.value);
      }
    }

    /** `reset_runtime_settings`: save the defaults and return them. */
    method Reset() returns (s: Settings)
      modifies this
      ensures s == Defaults && file == Saved(Defaults) && Load(file) == Defaults
    {
      DefaultsValid();
      s := Defaults;
      Save(s);
    }
  }

  /** Setting only the council temperature from the defaults changes only that field. */
  lemma UpdateExample()
    ensures Merge(Defaults, map["council_temperature" := JReal(0.77)]) == Ok(Defaults.(councilTemperature := 0.77))
  {
    var p := map["council_temperature" := JReal(0.77)];
    var target := Defaults.(councilTemperature := 0.77);
    assert Valid(target);
    forall f ensures (Dump(Defaults) + p)[Key(f)] == Dump(target)[Key(f)] {
      if f == CouncilTemperature { assert Key(f) in p; } else { assert Key(f) !in p; }
    }
    ConstructDump(target);
    SameFieldEntries(Dump(Defaults) + p, Dump(target));
  }

  /** Two objects that agree on every field key construct the same result. */
  lemma SameFieldEntries(a: map<string, Json>, b: map<string, Json>)
    requires forall f :: Key(f) in a && Key(f) in b && a[Key(f)] == b[Key(f)]
    ensures Construct(a) == Construct(b)
  {
    assert forall f :: Resolve(a, f) == Resolve(b, f);
    FirstRejectedSame(a, b, AllFields);
  }

  /** An out-of-bounds result count is rejected, naming that field. */
  lemma RejectExample()
    ensures Merge(Defaults, map["web_max_results" := JInt(11)]) == Err(WebMaxResults)
  {
    var q := map["web_max_results" := JInt(11)];
    var raw := Dump(Defaults) + q;
    ValidFieldsInBounds(Defaults);
    assert forall f :: f != WebMaxResults ==> Key(f) !in q;
    assert forall i :: 0 <= i < 7 ==> FieldAccepted(raw, AllFields[i]);
    assert !FieldAccepted(raw, WebMaxResults);
    FirstRejectedPrefix(raw, AllFields, 7);
  }

  /** When the first `k` fields are accepted and the next is not, that one is reported. */
  lemma {:induction false} FirstRejectedPrefix(raw: map<string, Json>, fields: seq<Field>, k: nat)
    requires k < |fields|
    requires forall i :: 0 <= i < k ==> FieldAccepted(raw, fields[i])
    requires !FieldAccepted(raw, fields[k])
    ensures FirstRejected(raw, fields) == Some(fields[k])
    decreases k
  {
    if k > 0 {
      FirstRejectedPrefix(raw, fields[1..], k - 1);
    }
  }
}
