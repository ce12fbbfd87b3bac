/**
  * The lesson content the language model is asked for, and its JSON form
  * (src/ollama/formatter.rs). Decoding follows the field rules of the derived
  * deserializer: `concept` is required, the four list fields and `syntax_guide` fall back
  * to empty when missing, an exercise's example input and output may be missing or null,
  * unknown keys are skipped and a repeated known key is an error. A record may also be
  * given positionally, as an array of its field values in declaration order: a missing
  * element is an error unless the field has a default, and leftover elements are an
  * error. The text-level JSON
  * grammar is a parameter `parse` that yields the document tree or `None`.
  */
module Formatter {
  import opened Wrappers

  datatype Json =
    | JNull
    | JBool(b: bool)
    | JNumber(n: int)
    | JString(s: string)
    | JArray(items: seq<Json>)
    | JObject(fields: seq<(string, Json)>)

  type Parser = string -> Option<Json>

  datatype DecodeError =
    | Syntax
    | InvalidType(field: string)
    | MissingField(field: string)
    | DuplicateField(field: string)
    | InvalidLength(count: nat)
    | TrailingElements

  datatype CodeExample = CodeExample(code: string, explanation: string)

  datatype TestCase = TestCase(input: string, output: string)

  datatype Exercise = Exercise(
    title: string,
    description: string,
    hints: seq<string>,
    exampleInput: Option<string>,
    exampleOutput: Option<string>,
    testCases: seq<TestCase>)

  datatype GeneratedContent = GeneratedContent(
    concept: string,
    stepByStep: seq<string>,
    codeExamples: seq<CodeExample>,
    syntaxGuide: string,
    commonPatterns: seq<string>,
    exercises: seq<Exercise>)

  /** How many members of the object carry the key. */
  function Occurrences(fields: seq<(string, Json)>, key: string): nat {
    if fields == [] then 0
    else (if fields[0].0 == key then 1 else 0) + Occurrences(fields[1..], key)
  }

  /**
    * The member under `key`: `None` when absent, its value when present once, and an error
    * when the key is repeated.
    */
  function Field(fields: seq<(string, Json)>, key: string): (r: Result<Option<Json>, DecodeError>)
    ensures r.Err? <==> Occurrences(fields, key) > 1
    ensures r == Ok(None) <==> Occurrences(fields, key) == 0
    ensures r.Ok? && r.value.Some? ==> (key, r.value.value) in fields
  {
    if fields == [] then Ok(None)
    else
      var rest := Field(fields[1..], key);
      if fields[0].0 != key then rest
      else if rest.Err? || rest.value.Some? then Err(DuplicateField(key))
      else Ok(Some(fields[0].1))
  }

  function DecodeString(j: Json, name: string): (r: Result<string, DecodeError>)
    ensures r.Ok? <==> j.JString?
    ensures r.Ok? ==> j == JString(r.value)
  {
    if j.JString? then Ok(j.s) else Err(InvalidType(name))
  }

  /** Decodes every element with `item`, failing on the first element that fails. */
  function DecodeItems<T>(items: seq<Json>, item: Json -> Result<T, DecodeError>): (r: Result<seq<T>, DecodeError>)
    ensures r.Ok? <==> forall i :: 0 <= i < |items| ==> item(items[i]).Ok?
    ensures r.Ok? ==> |r.value| == |items| && forall i :: 0 <= i < |items| ==> item(items[i]) == Ok(r.value[i])
  {
    if items == [] then Ok([])
    else
      var head :- item(items[0]);
      var tail :- DecodeItems(items[1..], item);
      Ok([head] + tail)
  }

  function DecodeArray<T>(j: Json, name: string, item: Json -> Result<T, DecodeError>): Result<seq<T>, DecodeError> {
    if j.JArray? then DecodeItems(j.items, item) else Err(InvalidType(name))
  }

  /** A field that must be present. */
  function Required<T>(fields: seq<(string, Json)>, key: string, dec: Json -> Result<T, DecodeError>): Result<T, DecodeError> {
    var f :- Field(fields, key);
    if f.None? then Err(MissingField(key)) else dec(f.value)
  }

  /** A field that falls back to `default` when missing (but not when null). */
  function Defaulted<T>(fields: seq<(string, Json)>, key: string, dec: Json -> Result<T, DecodeError>, default: T)
    : Result<T, DecodeError>
  {
    var f :- Field(fields, key);
    if f.None? then Ok(default) else dec(f.value)
  }

  /** An optional string: missing and null both decode to `None`. */
  function OptionalString(fields: seq<(string, Json)>, key: string): Result<Option<string>, DecodeError> {
    var f :- Field(fields, key);
    if f.None? || f.value.JNull? then Ok(None)
    else
      var s :- DecodeString(f.value, key);
      Ok(Some(s))
  }

  /** The `i`-th element of a positional record; running out of elements is an error. */
  function Element<T>(items: seq<Json>, i: nat, dec: Json -> Result<T, DecodeError>): Result<T, DecodeError> {
    if i < |items| then dec(items[i]) else Err(InvalidLength(i))
  }

  /** The `i`-th element of a positional record for a field with a default. */
  function DefaultedElement<T>(items: seq<Json>, i: nat, dec: Json -> Result<T, DecodeError>, default: T)
    : Result<T, DecodeError>
  {
    if i < |items| then dec(items[i]) else Ok(default)
  }

  function DecodeStringItem(j: Json): Result<string, DecodeError> {
    DecodeString(j, "string")
  }

  /** An optional string given as a value of its own: null is `None`. */
  function DecodeOptionalItem(j: Json): Result<Option<string>, DecodeError> {
    if j.JNull? then Ok(None)
    else
      var s :- DecodeString(j, "option");
      Ok(Some(s))
  }

  function DecodeCodeExample(j: Json): Result<CodeExample, DecodeError> {
    match j
    case JObject(fs) =>
      var code :- Required(fs, "code", DecodeStringItem);
      var explanation :- Required(fs, "explanation", DecodeStringItem);
      Ok(CodeExample(code, explanation))
    case JArray(items) =>
      var code :- Element(items, 0, DecodeStringItem);
      var explanation :- Element(items, 1, DecodeStringItem);
      if |items| > 2 then Err(TrailingElements) else Ok(CodeExample(code, explanation))
    case _ => Err(InvalidType("CodeExample"))
  }

  function DecodeTestCase(j: Json): Result<TestCase, DecodeError> {
    match j
    case JObject(fs) =>
      var input :- Required(fs, "input", DecodeStringItem);
      var output :- Required(fs, "output", DecodeStringItem);
      Ok(TestCase(input, output))
    case JArray(items) =>
      var input :- Element(items, 0, DecodeStringItem);
      var output :- Element(items, 1, DecodeStringItem);
      if |items| > 2 then Err(TrailingElements) else Ok(TestCase(input, output))
    case _ => Err(InvalidType("TestCase"))
  }

  function DecodeStringList(j: Json): Result<seq<string>, DecodeError> {
    DecodeArray(j, "sequence of strings", DecodeStringItem)
  }

  function DecodeTestCaseList(j: Json): Result<seq<TestCase>, DecodeError> {
    DecodeArray(j, "sequence of test cases", DecodeTestCase)
  }

  function DecodeExercise(j: Json): Result<Exercise, DecodeError> {
    match j
    case JObject(fs) =>
      var title :- Required(fs, "title", DecodeStringItem);
      var description :- Required(fs, "description", DecodeStringItem);
      var hints :- Required(fs, "hints", DecodeStringList);
      var exampleInput :- OptionalString(fs, "example_input");
      var exampleOutput :- OptionalString(fs, "example_output");
      var testCases :- Required(fs, "test_cases", DecodeTestCaseList);
      Ok(Exercise(title, description, hints, exampleInput, exampleOutput, testCases))
    case JArray(items) =>
      var title :- Element(items, 0, DecodeStringItem);
      var description :- Element(items, 1, DecodeStringItem);
      var hints :- Element(items, 2, DecodeStringList);
      var exampleInput :- Element(items, 3, DecodeOptionalItem);
      var exampleOutput :- Element(items, 4, DecodeOptionalItem);
      var testCases :- Element(items, 5, DecodeTestCaseList);
      if |items| > 6 then Err(TrailingElements)
      else Ok(Exercise(title, description, hints, exampleInput, exampleOutput, testCases))
    case _ => Err(InvalidType("Exercise"))
  }

  function DecodeCodeExampleList(j: Json): Result<seq<CodeExample>, DecodeError> {
    DecodeArray(j, "sequence of code examples", DecodeCodeExample)
  }

  function DecodeExerciseList(j: Json): Result<seq<Exercise>, DecodeError> {
    DecodeArray(j, "sequence of exercises", DecodeExercise)
  }

  /** The derived deserializer of `GeneratedContent` applied to a document tree. */
  function DecodeContent(j: Json): Result<GeneratedContent, DecodeError> {
    match j
    case JObject(fs) =>
      var concept :- Required(fs, "concept", DecodeStringItem);
      var steps :- Defaulted(fs, "step_by_step", DecodeStringList, []);
      var examples :- Defaulted(fs, "code_examples", DecodeCodeExampleList, []);
      var guide :- Defaulted(fs, "syntax_guide", DecodeStringItem, []);
      var patterns :- Defaulted(fs, "common_patterns", DecodeStringList, []);
      var exercises :- Defaulted(fs, "exercises", DecodeExerciseList, []);
      Ok(GeneratedContent(concept, steps, examples, guide, patterns, exercises))
    case JArray(items) =>
      var concept :- Element(items, 0, DecodeStringItem);
      var steps :- DefaultedElement(items, 1, DecodeStringList, []);
      var examples :- DefaultedElement(items, 2, DecodeCodeExampleList, []);
      var guide :- DefaultedElement(items, 3, DecodeStringItem, []);
      var patterns :- DefaultedElement(items, 4, DecodeStringList, []);
      var exercises :- DefaultedElement(items, 5, DecodeExerciseList, []);
      if |items| > 6 then Err(TrailingElements)
      else Ok(GeneratedContent(concept, steps, examples, guide, patterns, exercises))
    case _ => Err(InvalidType("GeneratedContent"))
  }

  /** `GeneratedContent::from_json`: parse the text, then decode the tree. */
  function FromJson(text: string, parse: Parser): (r: Result<GeneratedContent, DecodeError>)
    ensures parse(text).None? ==> r == Err(Syntax)
    ensures parse(text).Some? ==> r == DecodeContent(parse(text).value)
  {
    match parse(text)
    case None => Err(Syntax)
    case Some(j) => DecodeContent(j)
  }

  // The derived serializer: fields in declaration order, `None` as null.

  function EncodeStrings(xs: seq<string>): (j: Json)
    ensures j.JArray? && |j.items| == |xs| && forall i :: 0 <= i < |xs| ==> j.items[i] == JString(xs[i])
  {
    JArray(seq(|xs|, i requires 0 <= i < |xs| => JString(xs[i])))
  }

  function EncodeOption(o: Option<string>): Json {
    match o
    case None => JNull
    case Some(s) => JString(s)
  }

  function EncodeCodeExample(e: CodeExample): Json {
    JObject([("code", JString(e.code)), ("explanation", JString(e.explanation))])
  }

  function EncodeTestCase(t: TestCase): Json {
    JObject([("input", JString(t.input)), ("output", JString(t.output))])
  }

  function EncodeExercise(e: Exercise): Json {
    JObject([
      ("title", JString(e.title)),
      ("description", JString(e.description)),
      ("hints", EncodeStrings(e.hints)),
      ("example_input", EncodeOption(e.exampleInput)),
      ("example_output", EncodeOption(e.exampleOutput)),
      ("test_cases", JArray(seq(|e.testCases|, i requires 0 <= i < |e.testCases| => EncodeTestCase(e.testCases[i]))))
    ])
  }

  function EncodeContent(c: GeneratedContent): Json {
    JObject([
      ("concept", JString(c.concept)),
      ("step_by_step", EncodeStrings(c.stepByStep)),
      ("code_examples", JArray(seq(|c.codeExamples|, i requires 0 <= i < |c.codeExamples| => EncodeCodeExample(c.codeExamples[i])))),
      ("syntax_guide", JString(c.syntaxGuide)),
      ("common_patterns", EncodeStrings(c.commonPatterns)),
      ("exercises", JArray(seq(|c.exercises|, i requires 0 <= i < |c.exercises| => EncodeExercise(c.exercises[i]))))
    ])
  }

  /** The member of a key that occurs exactly once, at position `i`. */
  lemma {:induction false} FieldAt(fields: seq<(string, Json)>, key: string, i: nat)
    requires i < |fields| && fields[i].0 == key
    requires forall j :: 0 <= j < |fields| && j != i ==> fields[j].0 != key
    ensures Field(fields, key) == Ok(Some(fields[i].1))
  {
    if i == 0 {
      FieldAbsent(fields[1..], key);
    } else {
      FieldAt(fields[1..], key, i - 1);
    }
  }

  lemma {:induction false} FieldAbsent(fields: seq<(string, Json)>, key: string)
    requires forall j :: 0 <= j < |fields| ==> fields[j].0 != key
    ensures Field(fields, key) == Ok(None)
  {
    if fields != [] {
      FieldAbsent(fields[1..], key);
    }
  }

  /** Decoding an array of encoded items gives the items back. */
  lemma DecodeItemsRoundTrip<T>(items: seq<Json>, xs: seq<T>, item: Json -> Result<T, DecodeError>)
    requires |items| == |xs| && forall i :: 0 <= i < |xs| ==> item(items[i]) == Ok(xs[i])
    ensures DecodeItems(items, item) == Ok(xs)
  {
    var r := DecodeItems(items, item);
    assert r.Ok?;
    assert r.value == xs;
  }

  lemma StringsRoundTrip(xs: seq<string>)
    ensures DecodeStringList(EncodeStrings(xs)) == Ok(xs)
  {
    DecodeItemsRoundTrip(EncodeStrings(xs).items, xs, DecodeStringItem);
  }

  lemma CodeExampleRoundTrip(e: CodeExample)
    ensures DecodeCodeExample(EncodeCodeExample(e)) == Ok(e)
  {
    var fs := EncodeCodeExample(e).fields;
    FieldAt(fs, "code", 0);
    FieldAt(fs, "explanation", 1);
  }

  lemma TestCaseRoundTrip(t: TestCase)
    ensures DecodeTestCase(EncodeTestCase(t)) == Ok(t)
  {
    var fs := EncodeTestCase(t).fields;
    FieldAt(fs, "input", 0);
    FieldAt(fs, "output", 1);
  }

  lemma ExerciseRoundTrip(e: Exercise)
    ensures DecodeExercise(EncodeExercise(e)) == Ok(e)
  {
    ExerciseTextFieldsRoundTrip(e);
    ExerciseInputRoundTrip(e);
    ExerciseOutputRoundTrip(e);
    ExerciseTestCasesRoundTrip(e);
    ExerciseFromFields(EncodeExercise(e).fields, e);
  }

  lemma ExerciseTextFieldsRoundTrip(e: Exercise)
    ensures Required(EncodeExercise(e).fields, "title", DecodeStringItem) == Ok(e.title)
    ensures Required(EncodeExercise(e).fields, "description", DecodeStringItem) == Ok(e.description)
    ensures Required(EncodeExercise(e).fields, "hints", DecodeStringList) == Ok(e.hints)
  {
    var fs := EncodeExercise(e).fields;
    FieldAt(fs, "title", 0);
    FieldAt(fs, "description", 1);
    FieldAt(fs, "hints", 2);
    StringsRoundTrip(e.hints);
  }

  /** An optional string encoded as `null` or a string decodes back. */
  lemma OptionalOfEncoded(fields: seq<(string, Json)>, key: string, o: Option<string>)
    requires Field(fields, key) == Ok(Some(EncodeOption(o)))
    ensures OptionalString(fields, key) == Ok(o)
  {
    match o
    case None =>
    case Some(s) => assert DecodeString(JString(s), key) == Ok(s);
  }

  lemma ExerciseInputRoundTrip(e: Exercise)
    ensures OptionalString(EncodeExercise(e).fields, "example_input") == Ok(e.exampleInput)
  {
    var fs := EncodeExercise(e).fields;
    FieldAt(fs, "example_input", 3);
    OptionalOfEncoded(fs, "example_input", e.exampleInput);
  }

  lemma ExerciseOutputRoundTrip(e: Exercise)
    ensures OptionalString(EncodeExercise(e).fields, "example_output") == Ok(e.exampleOutput)
  {
    var fs := EncodeExercise(e).fields;
    FieldAt(fs, "example_output", 4);
    OptionalOfEncoded(fs, "example_output", e.exampleOutput);
  }

  lemma ExerciseTestCasesRoundTrip(e: Exercise)
    ensures Required(EncodeExercise(e).fields, "test_cases", DecodeTestCaseList) == Ok(e.testCases)
  {
    var fs := EncodeExercise(e).fields;
    FieldAt(fs, "test_cases", 5);
    forall i | 0 <= i < |e.testCases|
      ensures DecodeTestCase(fs[5].1.items[i]) == Ok(e.testCases[i])
    {
      TestCaseRoundTrip(e.testCases[i]);
    }
    DecodeItemsRoundTrip(fs[5].1.items, e.testCases, DecodeTestCase);
  }

  /** An exercise object decodes to `e` once each of its fields does. */
  lemma ExerciseFromFields(fs: seq<(string, Json)>, e: Exercise)
    requires Required(fs, "title", DecodeStringItem) == Ok(e.title)
    requires Required(fs, "description", DecodeStringItem) == Ok(e.description)
    requires Required(fs, "hints", DecodeStringList) == Ok(e.hints)
    requires OptionalString(fs, "example_input") == Ok(e.exampleInput)
    requires OptionalString(fs, "example_output") == Ok(e.exampleOutput)
    requires Required(fs, "test_cases", DecodeTestCaseList) == Ok(e.testCases)
    ensures DecodeExercise(JObject(fs)) == Ok(e)
  {
  }

  /** Decoding the serialized form of any content gives back the same content. */
  lemma ContentRoundTrip(c: GeneratedContent)
    ensures DecodeContent(EncodeContent(c)) == Ok(c)
  {
    ContentTextFieldsRoundTrip(c);
    ContentListFieldsRoundTrip(c);
    ContentExamplesRoundTrip(c);
    ContentExercisesRoundTrip(c);
    ContentFromFields(EncodeContent(c).fields, c);
  }

  lemma ContentTextFieldsRoundTrip(c: GeneratedContent)
    ensures Required(EncodeContent(c).fields, "concept", DecodeStringItem) == Ok(c.concept)
    ensures Defaulted(EncodeContent(c).fields, "syntax_guide", DecodeStringItem, []) == Ok(c.syntaxGuide)
  {
    var fs := EncodeContent(c).fields;
    FieldAt(fs, "concept", 0);
    FieldAt(fs, "syntax_guide", 3);
  }

  lemma ContentListFieldsRoundTrip(c: GeneratedContent)
    ensures Defaulted(EncodeContent(c).fields, "step_by_step", DecodeStringList, []) == Ok(c.stepByStep)
    ensures Defaulted(EncodeContent(c).fields, "common_patterns", DecodeStringList, []) == Ok(c.commonPatterns)
  {
    var fs := EncodeContent(c).fields;
    FieldAt(fs, "step_by_step", 1);
    FieldAt(fs, "common_patterns", 4);
    StringsRoundTrip(c.stepByStep);
    StringsRoundTrip(c.commonPatterns);
  }

  lemma ContentExamplesRoundTrip(c: GeneratedContent)
    ensures Defaulted(EncodeContent(c).fields, "code_examples", DecodeCodeExampleList, []) == Ok(c.codeExamples)
  {
    var fs := EncodeContent(c).fields;
    FieldAt(fs, "code_examples", 2);
    forall i | 0 <= i < |c.codeExamples|
      ensures DecodeCodeExample(fs[2].1.items[i]) == Ok(c.codeExamples[i])
    {
      CodeExampleRoundTrip(c.codeExamples[i]);
    }
    DecodeItemsRoundTrip(fs[2].1.items, c.codeExamples, DecodeCodeExample);
  }

  lemma ContentExercisesRoundTrip(c: GeneratedContent)
    ensures Defaulted(EncodeContent(c).fields, "exercises", DecodeExerciseList, []) == Ok(c.exercises)
  {
    var fs := EncodeContent(c).fields;
    FieldAt(fs, "exercises", 5);
    forall i | 0 <= i < |c.exercises|
      ensures DecodeExercise(fs[5].1.items[i]) == Ok(c.exercises[i])
    {
      ExerciseRoundTrip(c.exercises[i]);
    }
    DecodeItemsRoundTrip(fs[5].1.items, c.exercises, DecodeExercise);
  }

  /** A content object decodes to `c` once each of its fields does. */
  lemma ContentFromFields(fs: seq<(string, Json)>, c: GeneratedContent)
    requires Required(fs, "concept", DecodeStringItem) == Ok(c.concept)
    requires Defaulted(fs, "step_by_step", DecodeStringList, []) == Ok(c.stepByStep)
    requires Defaulted(fs, "code_examples", DecodeCodeExampleList, []) == Ok(c.codeExamples)
    requires Defaulted(fs, "syntax_guide", DecodeStringItem, []) == Ok(c.syntaxGuide)
    requires Defaulted(fs, "common_patterns", DecodeStringList, []) == Ok(c.commonPatterns)
    requires Defaulted(fs, "exercises", DecodeExerciseList, []) == Ok(c.exercises)
    ensures DecodeContent(JObject(fs)) == Ok(c)
  {
  }

  /** Text that parses to the serialized form of some content reads back as that content. */
  lemma FromJsonRoundTrip(c: GeneratedContent, text: string, parse: Parser)
    requires parse(text) == Some(EncodeContent(c))
    ensures FromJson(text, parse) == Ok(c)
  {
    ContentRoundTrip(c);
  }

  /** An object holding only a string `concept` decodes, with every other field empty. */
  lemma OnlyConceptRequired(concept: string)
    ensures DecodeContent(JObject([("concept", JString(concept))])) == Ok(GeneratedContent(concept, [], [], [], [], []))
  {
  }

  /** Without a `concept` member (and with no repeated key) decoding reports the missing field. */
  lemma MissingConceptFails(fields: seq<(string, Json)>)
    requires Occurrences(fields, "concept") == 0
    ensures DecodeContent(JObject(fields)) == Err(MissingField("concept"))
  {
  }

  /** A repeated known key makes the whole document fail. */
  lemma RepeatedConceptFails(fields: seq<(string, Json)>)
    requires Occurrences(fields, "concept") > 1
    ensures DecodeContent(JObject(fields)).Err?
  {
  }

  /** Members with unknown keys are skipped. */
  lemma UnknownKeysIgnored(fields: seq<(string, Json)>, key: string, v: Json)
    requires key !in {"concept", "step_by_step", "code_examples", "syntax_guide", "common_patterns", "exercises"}
    ensures DecodeContent(JObject(fields + [(key, v)])) == DecodeContent(JObject(fields))
  {
    var more := fields + [(key, v)];
    FieldIgnoresOtherKeys(fields, key, v, "concept");
    assert Required(more, "concept", DecodeStringItem) == Required(fields, "concept", DecodeStringItem);
    FieldIgnoresOtherKeys(fields, key, v, "step_by_step");
    assert Defaulted(more, "step_by_step", DecodeStringList, []) == Defaulted(fields, "step_by_step", DecodeStringList, []);
    FieldIgnoresOtherKeys(fields, key, v, "code_examples");
    assert Defaulted(more, "code_examples", DecodeCodeExampleList, []) == Defaulted(fields, "code_examples", DecodeCodeExampleList, []);
    FieldIgnoresOtherKeys(fields, key, v, "syntax_guide");
    assert Defaulted(more, "syntax_guide", DecodeStringItem, []) == Defaulted(fields, "syntax_guide", DecodeStringItem, []);
    FieldIgnoresOtherKeys(fields, key, v, "common_patterns");
    assert Defaulted(more, "common_patterns", DecodeStringList, []) == Defaulted(fields, "common_patterns", DecodeStringList, []);
    FieldIgnoresOtherKeys(fields, key, v, "exercises");
    assert Defaulted(more, "exercises", DecodeExerciseList, []) == Defaulted(fields, "exercises", DecodeExerciseList, []);
  }

  lemma {:induction false} FieldIgnoresOtherKeys(fields: seq<(string, Json)>, key: string, v: Json, wanted: string)
    requires key != wanted
    ensures Field(fields + [(key, v)], wanted) == Field(fields, wanted)
  {
    if fields == [] {
    } else {
      assert (fields + [(key, v)])[1..] == fields[1..] + [(key, v)];
      FieldIgnoresOtherKeys(fields[1..], key, v, wanted);
    }
  }

  /** The members of an exercise whose example input is null and whose example output is missing. */
  function NullExampleFields(title: string, description: string): seq<(string, Json)> {
    [("title", JString(title)), ("description", JString(description)), ("hints", JArray([])),
     ("example_input", JNull), ("test_cases", JArray([]))]
  }

  /** An exercise object whose example input and output are null or missing decodes them as `None`. */
  lemma NullExamplesDecodeAsNone(title: string, description: string)
    ensures DecodeExercise(JObject(NullExampleFields(title, description)))
      == Ok(Exercise(title, description, [], None, None, []))
  {
    NullExampleTexts(title, description);
    NullExampleLists(title, description);
    NullExampleOptionals(title, description);
    ExerciseFromFields(NullExampleFields(title, description), Exercise(title, description, [], None, None, []));
  }

  lemma NullExampleTexts(title: string, description: string)
    ensures Required(NullExampleFields(title, description), "title", DecodeStringItem) == Ok(title)
    ensures Required(NullExampleFields(title, description), "description", DecodeStringItem) == Ok(description)
  {
    FieldAt(NullExampleFields(title, description), "title", 0);
    FieldAt(NullExampleFields(title, description), "description", 1);
  }

  lemma NullExampleLists(title: string, description: string)
    ensures Required(NullExampleFields(title, description), "hints", DecodeStringList) == Ok([])
    ensures Required(NullExampleFields(title, description), "test_cases", DecodeTestCaseList) == Ok([])
  {
    FieldAt(NullExampleFields(title, description), "hints", 2);
    FieldAt(NullExampleFields(title, description), "test_cases", 4);
  }

  lemma NullExampleOptionals(title: string, description: string)
    ensures OptionalString(NullExampleFields(title, description), "example_input") == Ok(None)
    ensures OptionalString(NullExampleFields(title, description), "example_output") == Ok(None)
  {
    FieldAt(NullExampleFields(title, description), "example_input", 3);
    OptionalOfEncoded(NullExampleFields(title, description), "example_input", None);
    FieldAbsent(NullExampleFields(title, description), "example_output");
  }

  /** An exercise without a title is rejected. */
  lemma MissingTitleFails(fields: seq<(string, Json)>)
    requires Occurrences(fields, "title") == 0
    ensures DecodeExercise(JObject(fields)) == Err(MissingField("title"))
  {
  }

  // Positional records.

  /** A positional code example is exactly two strings, the code and then the explanation. */
  lemma PositionalCodeExample(items: seq<Json>)
    ensures DecodeCodeExample(JArray(items)).Ok? <==> |items| == 2 && items[0].JString? && items[1].JString?
    ensures DecodeCodeExample(JArray(items)).Ok? ==>
      DecodeCodeExample(JArray(items)).value == CodeExample(items[0].s, items[1].s)
  {
  }

  /** A positional test case is exactly two strings, the input and then the output. */
  lemma PositionalTestCase(items: seq<Json>)
    ensures DecodeTestCase(JArray(items)).Ok? <==> |items| == 2 && items[0].JString? && items[1].JString?
    ensures DecodeTestCase(JArray(items)).Ok? ==>
      DecodeTestCase(JArray(items)).value == TestCase(items[0].s, items[1].s)
  {
  }

  /**
    * Positional content holds the concept first and at most the six fields; an empty array
    * lacks the concept.
    */
  lemma PositionalContentShape(items: seq<Json>)
    ensures DecodeContent(JArray(items)).Ok? ==>
      1 <= |items| <= 6 && items[0] == JString(DecodeContent(JArray(items)).value.concept)
    ensures items == [] ==> DecodeContent(JArray(items)) == Err(InvalidLength(0))
  {
  }

  /** A lone concept in positional form leaves every defaulted field empty. */
  lemma PositionalConceptOnly(concept: string)
    ensures DecodeContent(JArray([JString(concept)])) == Ok(GeneratedContent(concept, [], [], [], [], []))
  {
  }

  /**
    * A positional exercise needs all six elements: the example input and output, which may
    * be missing from an object, must be present here, as null or a string.
    */
  lemma PositionalExerciseComplete(items: seq<Json>)
    ensures DecodeExercise(JArray(items)).Ok? ==> |items| == 6
    ensures DecodeExercise(JArray(items)).Ok? ==>
      (items[3] == JNull <==> DecodeExercise(JArray(items)).value.exampleInput.None?) &&
      (items[4] == JNull <==> DecodeExercise(JArray(items)).value.exampleOutput.None?)
  {
  }
}
