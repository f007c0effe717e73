/**
 * `CodeReviewToolParamsSchema`: the zod object schema of a code-review
 * request. The schema is kept as a declarative table of field rules checked
 * by one generic routine that, like zod's object validation, collects an
 * issue for every failing field before rejecting; only a candidate with no
 * issue yields a typed `CodeReviewToolParams`.
 */
module ReviewParams {
  import opened Wrappers
  import opened Enums

  /** An untyped JSON-like candidate value. */
  datatype Json =
    | JNull
    | JBool(b: bool)
    | JNumber(n: real)
    | JString(s: string)
    | JArray(items: seq<Json>)
    | JObject(fields: map<string, Json>)

  /** The typed record `z.infer<typeof CodeReviewToolParamsSchema>`. */
  datatype CodeReviewToolParams = CodeReviewToolParams(
    target: ReviewTarget,
    taskDescription: string,
    llmProvider: LLMProvider,
    modelName: string,
    reviewFocus: Option<string>,
    projectContext: Option<string>,
    diffBase: Option<string>,
    maxTokens: Option<real>)

  /** Why validation failed: the input is not an object, or these fields (in schema order) failed. */
  datatype SchemaError = NotAnObject | InvalidFields(fields: seq<string>)

  /** The constraint on one field's value. */
  datatype Rule =
    | OneOf(options: seq<string>)   // z.enum([...])
    | Text(minLength: nat)          // z.string(), with .min(n) when n > 0
    | PositiveNumber                // z.number().positive()

  datatype FieldRule = FieldRule(name: string, rule: Rule, optional: bool)

  /** The fields of `CodeReviewToolParamsSchema`, in declaration order. */
  const Schema: seq<FieldRule> := [
    FieldRule("target", OneOf(ReviewTargetNames), false),
    FieldRule("taskDescription", Text(1), false),
    FieldRule("llmProvider", OneOf(ProviderNames), false),
    FieldRule("modelName", Text(1), false),
    FieldRule("reviewFocus", Text(0), true),
    FieldRule("projectContext", Text(0), true),
    FieldRule("diffBase", Text(0), true),
    FieldRule("maxTokens", PositiveNumber, true)
  ]

  predicate RuleAccepts(rule: Rule, v: Json) {
    match rule
    case OneOf(options) => v.JString? && v.s in options
    case Text(minLength) => v.JString? && |v.s| >= minLength
    case PositiveNumber => v.JNumber? && v.n > 0.0
  }

  /** A missing field passes only when it is optional; a present one must satisfy its rule. */
  predicate FieldAccepts(f: FieldRule, obj: map<string, Json>) {
    if f.name in obj then RuleAccepts(f.rule, obj[f.name]) else f.optional
  }

  /** The names of the fields of `rules` that `obj` fails, in order. */
  function Issues(rules: seq<FieldRule>, obj: map<string, Json>): (r: seq<string>)
    ensures |r| <= |rules|
    ensures r == [] <==> forall i :: 0 <= i < |rules| ==> FieldAccepts(rules[i], obj)
    ensures forall x :: x in r ==> exists i :: 0 <= i < |rules| && rules[i].name == x
  {
    if rules == [] then []
    else
      var rest := Issues(rules[1..], obj);
      assert forall i :: 1 <= i < |rules| ==> rules[i] == rules[1..][i - 1];
      (if FieldAccepts(rules[0], obj) then [] else [rules[0].name]) + rest
  }

  /** No two rules share a name. */
  predicate DistinctNames(rules: seq<FieldRule>) {
    forall i, j :: 0 <= i < j < |rules| ==> rules[i].name != rules[j].name
  }

  /** With distinct names, a field is reported iff it fails its rule. */
  lemma {:induction false} IssuesReportsField(rules: seq<FieldRule>, obj: map<string, Json>, i: nat)
    requires DistinctNames(rules) && i < |rules|
    ensures rules[i].name in Issues(rules, obj) <==> !FieldAccepts(rules[i], obj)
  {
    var rest := Issues(rules[1..], obj);
    assert DistinctNames(rules[1..]) by {
      forall a, b | 0 <= a < b < |rules[1..]| ensures rules[1..][a].name != rules[1..][b].name {
        assert rules[1..][a] == rules[a + 1] && rules[1..][b] == rules[b + 1];
      }
    }
    if i == 0 {
      if rules[0].name in rest {
        var k :| 0 <= k < |rules[1..]| && rules[1..][k].name == rules[0].name;
      }
    } else {
      IssuesReportsField(rules[1..], obj, i - 1);
      assert rules[1..][i - 1] == rules[i];
    }
  }

  lemma SchemaNamesDistinct()
    ensures DistinctNames(Schema)
  {
  }

  /** The typed record built from a candidate that passes every rule. */
  function Build(obj: map<string, Json>): (p: CodeReviewToolParams)
    requires forall i :: 0 <= i < |Schema| ==> FieldAccepts(Schema[i], obj)
  {
    assert FieldAccepts(Schema[0], obj) && FieldAccepts(Schema[1], obj);
    assert FieldAccepts(Schema[2], obj) && FieldAccepts(Schema[3], obj);
    assert FieldAccepts(Schema[4], obj) && FieldAccepts(Schema[5], obj);
    assert FieldAccepts(Schema[6], obj) && FieldAccepts(Schema[7], obj);
    CodeReviewToolParams(
      ParseReviewTarget(obj["target"].s).value,
      obj["taskDescription"].s,
      ParseProvider(obj["llmProvider"].s).value,
      obj["modelName"].s,
      if "reviewFocus" in obj then Some(obj["reviewFocus"].s) else None,
      if "projectContext" in obj then Some(obj["projectContext"].s) else None,
      if "diffBase" in obj then Some(obj["diffBase"].s) else None,
      if "maxTokens" in obj then Some(obj["maxTokens"].n) else None)
  }

  /** What a typed record guarantees to its consumers. */
  predicate WellFormed(p: CodeReviewToolParams) {
    |p.taskDescription| >= 1 && |p.modelName| >= 1 &&
    (p.maxTokens.Some? ==> p.maxTokens.value > 0.0)
  }

  /** `CodeReviewToolParamsSchema.parse(candidate)`. */
  function Validate(candidate: Json): (r: Result<CodeReviewToolParams, SchemaError>)
    ensures r.Ok? ==> WellFormed(r.value)
    ensures r.Err? && candidate.JObject? ==> r.error.InvalidFields? && r.error.fields != []
    ensures !candidate.JObject? ==> r == Err(NotAnObject)
  {
    if !candidate.JObject? then Err(NotAnObject)
    else
      var obj := candidate.fields;
      var issues := Issues(Schema, obj);
      if issues != [] then Err(InvalidFields(issues))
      else
        assert FieldAccepts(Schema[1], obj) && FieldAccepts(Schema[3], obj);
        assert FieldAccepts(Schema[7], obj);
        Ok(Build(obj))
  }

  // ----- A field-by-field reference statement of the schema -----

  predicate IsStringIn(obj: map<string, Json>, key: string, options: set<string>) {
    key in obj && obj[key].JString? && obj[key].s in options
  }

  predicate IsNonEmptyString(obj: map<string, Json>, key: string) {
    key in obj && obj[key].JString? && obj[key].s != ""
  }

  predicate AbsentOrString(obj: map<string, Json>, key: string) {
    key in obj ==> obj[key].JString?
  }

  predicate AbsentOrPositive(obj: map<string, Json>, key: string) {
    key in obj ==> obj[key].JNumber? && obj[key].n > 0.0
  }

  /** The per-field constraints, one conjunct per field, written out. */
  predicate FieldsOk(obj: map<string, Json>) {
    && IsStringIn(obj, "target", {"staged", "HEAD", "branch_diff"})
    && IsNonEmptyString(obj, "taskDescription")
    && IsStringIn(obj, "llmProvider", {"google", "openai", "anthropic"})
    && IsNonEmptyString(obj, "modelName")
    && AbsentOrString(obj, "reviewFocus")
    && AbsentOrString(obj, "projectContext")
    && AbsentOrString(obj, "diffBase")
    && AbsentOrPositive(obj, "maxTokens")
  }

  /** The table's rule for each field is the written-out constraint. */
  lemma SchemaRulesMeaning(obj: map<string, Json>)
    ensures FieldAccepts(Schema[0], obj) <==> IsStringIn(obj, "target", {"staged", "HEAD", "branch_diff"})
    ensures FieldAccepts(Schema[1], obj) <==> IsNonEmptyString(obj, "taskDescription")
    ensures FieldAccepts(Schema[2], obj) <==> IsStringIn(obj, "llmProvider", {"google", "openai", "anthropic"})
    ensures FieldAccepts(Schema[3], obj) <==> IsNonEmptyString(obj, "modelName")
    ensures FieldAccepts(Schema[4], obj) <==> AbsentOrString(obj, "reviewFocus")
    ensures FieldAccepts(Schema[5], obj) <==> AbsentOrString(obj, "projectContext")
    ensures FieldAccepts(Schema[6], obj) <==> AbsentOrString(obj, "diffBase")
    ensures FieldAccepts(Schema[7], obj) <==> AbsentOrPositive(obj, "maxTokens")
  {
    if "taskDescription" in obj && obj["taskDescription"].JString? {
      assert |obj["taskDescription"].s| >= 1 <==> obj["taskDescription"].s != "";
    }
    if "modelName" in obj && obj["modelName"].JString? {
      assert |obj["modelName"].s| >= 1 <==> obj["modelName"].s != "";
    }
  }

  /** An object candidate is accepted iff every field meets its constraint; there is no cross-field rule. */
  lemma ValidateAcceptsIff(obj: map<string, Json>)
    ensures Validate(JObject(obj)).Ok? <==> FieldsOk(obj)
  {
    SchemaRulesMeaning(obj);
    var issues := Issues(Schema, obj);
    if FieldsOk(obj) {
      forall i | 0 <= i < |Schema| ensures FieldAccepts(Schema[i], obj) {
      }
    }
  }

  /** On rejection every failing field is reported, and only failing fields are. */
  lemma ValidateReportsEveryField(obj: map<string, Json>, f: nat)
    requires f < |Schema|
    ensures Validate(JObject(obj)).Err?
            ==> (Schema[f].name in Validate(JObject(obj)).error.fields <==> !FieldAccepts(Schema[f], obj))
  {
    SchemaNamesDistinct();
    IssuesReportsField(Schema, obj, f);
  }

  /** The keys the schema knows about; any other key of a candidate is ignored. */
  const SchemaKeys: set<string> :=
    {"target", "taskDescription", "llmProvider", "modelName",
     "reviewFocus", "projectContext", "diffBase", "maxTokens"}

  /** The candidate object that describes a typed record: its required fields and its present optional ones. */
  function ToCandidate(p: CodeReviewToolParams): (obj: map<string, Json>)
    ensures obj.Keys <= SchemaKeys
  {
    var required := map[
      "target" := JString(ReviewTargetName(p.target)),
      "taskDescription" := JString(p.taskDescription),
      "llmProvider" := JString(ProviderName(p.llmProvider)),
      "modelName" := JString(p.modelName)];
    var m1 := if p.reviewFocus.Some? then required["reviewFocus" := JString(p.reviewFocus.value)] else required;
    var m2 := if p.projectContext.Some? then m1["projectContext" := JString(p.projectContext.value)] else m1;
    var m3 := if p.diffBase.Some? then m2["diffBase" := JString(p.diffBase.value)] else m2;
    if p.maxTokens.Some? then m3["maxTokens" := JNumber(p.maxTokens.value)] else m3
  }

  /** The fields of `ToCandidate(p)`, key by key. */
  lemma ToCandidateFields(p: CodeReviewToolParams)
    ensures var obj := ToCandidate(p);
      && obj.Keys >= {"target", "taskDescription", "llmProvider", "modelName"}
      && obj["target"] == JString(ReviewTargetName(p.target))
      && obj["taskDescription"] == JString(p.taskDescription)
      && obj["llmProvider"] == JString(ProviderName(p.llmProvider))
      && obj["modelName"] == JString(p.modelName)
      && ("reviewFocus" in obj <==> p.reviewFocus.Some?)
      && (p.reviewFocus.Some? ==> obj["reviewFocus"] == JString(p.reviewFocus.value))
      && ("projectContext" in obj <==> p.projectContext.Some?)
      && (p.projectContext.Some? ==> obj["projectContext"] == JString(p.projectContext.value))
      && ("diffBase" in obj <==> p.diffBase.Some?)
      && (p.diffBase.Some? ==> obj["diffBase"] == JString(p.diffBase.value))
      && ("maxTokens" in obj <==> p.maxTokens.Some?)
      && (p.maxTokens.Some? ==> obj["maxTokens"] == JNumber(p.maxTokens.value))
  {
  }

  /** Every well-formed record survives describing it as a candidate and validating that. */
  lemma ValidateToCandidate(p: CodeReviewToolParams)
    requires WellFormed(p)
    ensures Validate(JObject(ToCandidate(p))) == Ok(p)
  {
    var obj := ToCandidate(p);
    ToCandidateFields(p);
    ReviewTargetRoundTrip(p.target);
    ProviderRoundTrip(p.llmProvider);
    assert FieldsOk(obj);
    ValidateAcceptsIff(obj);
    assert Validate(JObject(obj)).value == p;
  }

  /** An accepted candidate is exactly the description of its record, once unknown keys are dropped. */
  lemma ValidateKeepsValues(obj: map<string, Json>)
    requires Validate(JObject(obj)).Ok?
    ensures ToCandidate(Validate(JObject(obj)).value) == map k | k in obj && k in SchemaKeys :: obj[k]
  {
    ValidateAcceptsIff(obj);
    var p := Validate(JObject(obj)).value;
    var c := ToCandidate(p);
    var known := map k | k in obj && k in SchemaKeys :: obj[k];
    assert c.Keys == known.Keys;
    forall k | k in c ensures c[k] == known[k] {
    }
  }

  /** A `branch_diff` request without `diffBase` is accepted. */
  lemma BranchDiffWithoutDiffBase()
    ensures Validate(JObject(map[
      "target" := JString("branch_diff"),
      "taskDescription" := JString("fix bug"),
      "llmProvider" := JString("google"),
      "modelName" := JString("gemini-2.5-pro-preview-05-06")])).Ok?
  {
    ValidateAcceptsIff(map[
      "target" := JString("branch_diff"),
      "taskDescription" := JString("fix bug"),
      "llmProvider" := JString("google"),
      "modelName" := JString("gemini-2.5-pro-preview-05-06")]);
  }

  /** A minimal request with every optional field absent is accepted as it is. */
  lemma MinimalRequestAccepted()
    ensures Validate(JObject(map[
      "target" := JString("staged"),
      "taskDescription" := JString("fix bug"),
      "llmProvider" := JString("anthropic"),
      "modelName" := JString("claude-3-7-sonnet-20250219")]))
      == Ok(CodeReviewToolParams(Staged, "fix bug", Anthropic, "claude-3-7-sonnet-20250219", None, None, None, None))
  {
    var obj := map[
      "target" := JString("staged"),
      "taskDescription" := JString("fix bug"),
      "llmProvider" := JString("anthropic"),
      "modelName" := JString("claude-3-7-sonnet-20250219")];
    ValidateAcceptsIff(obj);
  }

  /** An empty object is rejected with all four required fields reported, in schema order. */
  lemma EmptyRequestReportsRequiredFields()
    ensures Validate(JObject(map[])) == Err(InvalidFields(["target", "taskDescription", "llmProvider", "modelName"]))
  {
    var obj: map<string, Json> := map[];
    assert Issues(Schema[4..], obj) == [] by {
      assert forall i :: 0 <= i < |Schema[4..]| ==> FieldAccepts(Schema[4..][i], obj);
    }
    assert Issues(Schema[3..], obj) == ["modelName"] + Issues(Schema[4..], obj);
    assert Issues(Schema[2..], obj) == ["llmProvider"] + Issues(Schema[3..], obj);
    assert Issues(Schema[1..], obj) == ["taskDescription"] + Issues(Schema[2..], obj);
    assert Issues(Schema, obj) == ["target"] + Issues(Schema[1..], obj);
    assert Issues(Schema, obj) == ["target", "taskDescription", "llmProvider", "modelName"];
  }

  /** A non-positive `maxTokens` and a `null` `diffBase` are both reported. */
  lemma BadOptionalFieldsReported()
    ensures Validate(JObject(map[
      "target" := JString("HEAD"),
      "taskDescription" := JString("t"),
      "llmProvider" := JString("openai"),
      "modelName" := JString("o4-mini"),
      "diffBase" := JNull,
      "maxTokens" := JNumber(0.0)])) == Err(InvalidFields(["diffBase", "maxTokens"]))
  {
    var obj := map[
      "target" := JString("HEAD"),
      "taskDescription" := JString("t"),
      "llmProvider" := JString("openai"),
      "modelName" := JString("o4-mini"),
      "diffBase" := JNull,
      "maxTokens" := JNumber(0.0)];
    assert Issues(Schema[8..], obj) == [];
    assert Issues(Schema[7..], obj) == ["maxTokens"] + Issues(Schema[8..], obj);
    assert Issues(Schema[6..], obj) == ["diffBase"] + Issues(Schema[7..], obj);
    assert Issues(Schema[..6], obj) == [] by {
      assert forall i :: 0 <= i < 6 ==> FieldAccepts(Schema[..6][i], obj);
    }
    IssuesAppend(Schema[..6], Schema[6..], obj);
    assert Schema[..6] + Schema[6..] == Schema;
    assert Issues(Schema, obj) == ["diffBase", "maxTokens"];
  }

  /** Issues of a concatenation are the issues of each part, in order. */
  lemma {:induction false} IssuesAppend(a: seq<FieldRule>, b: seq<FieldRule>, obj: map<string, Json>)
    ensures Issues(a + b, obj) == Issues(a, obj) + Issues(b, obj)
  {
    if a != [] {
      IssuesAppend(a[1..], b, obj);
      assert (a + b)[1..] == a[1..] + b && (a + b)[0] == a[0];
    } else {
      assert a + b == b;
    }
  }
}
