/**
  * What `Generator::generate` does with the model's reply once it has it
  * (src/ollama/generator.rs): extract the JSON and decode it, falling back to the content
  * mined from the reply, then raise the content to its floors of two examples, one exercise
  * and test cases on every exercise.
  */
module Generation {
  import opened Wrappers
  import opened Text
  import opened Languages
  import opened Formatter
  import opened JsonExtraction
  import opened Fallback

  // Acquiring the content.

  /**
    * The JSON text to decode: extracted from the reply, else from the raw `response` field of
    * the server's answer when it is a string, else empty.
    */
  function JsonText(response: string, rawResponse: Option<string>, parses: JsonCheck): string {
    match ExtractJsonSpec(response, parses)
    case Ok(json) => json
    case Err(_) =>
      match rawResponse
      case Some(s) =>
        (match ExtractJsonSpec(s, parses)
         case Ok(json) => json
         case Err(_) => "")
      case None => ""
  }

  /** The content before post-processing: the decoded JSON, or the fallback built from the reply. */
  function AcquiredContent(l: Language, topic: string, response: string, rawResponse: Option<string>,
                           parses: JsonCheck, parse: Parser): GeneratedContent
  {
    var json := JsonText(response, rawResponse, parses);
    if json == "" then FallbackFromResponse(l, topic, response)
    else
      match FromJson(json, parse)
      case Ok(c) => c
      case Err(_) => FallbackFromResponse(l, topic, response)
  }

  /**
    * The decoded JSON is used exactly when some text was extracted and it decodes; in every
    * other case the content is the fallback mined from the reply, never an error.
    */
  lemma AcquiredContentCases(l: Language, topic: string, response: string, rawResponse: Option<string>,
                             parses: JsonCheck, parse: Parser)
    ensures var json := JsonText(response, rawResponse, parses);
      AcquiredContent(l, topic, response, rawResponse, parses, parse)
        == if json != "" && FromJson(json, parse).Ok? then FromJson(json, parse).value
           else FallbackFromResponse(l, topic, response)
    ensures JsonText(response, rawResponse, parses) != "" ==> parses(JsonText(response, rawResponse, parses))
  {
    ExtractJsonParsed(response, parses);
    if rawResponse.Some? {
      ExtractJsonParsed(rawResponse.value, parses);
    }
  }

  // Raising the content to its floors.

  /** The filler example numbered `n`. */
  function FillerExample(l: Language, topic: string, n: nat): CodeExample {
    CodeExample("// Example " + NatToString(n) + " for " + topic + " in " + DisplayName(l) + "\n// Add your code here",
                "Example " + NatToString(n) + " demonstrating " + topic + " in " + DisplayName(l) + ".")
  }

  /** Fillers numbered from `|xs| + 1` up, until there are two examples. */
  function PadToTwo(l: Language, topic: string, xs: seq<CodeExample>): (r: seq<CodeExample>)
    ensures |r| == if |xs| >= 2 then |xs| else 2
    ensures r[..|xs|] == xs
    decreases 2 - |xs|
  {
    if |xs| >= 2 then xs else PadToTwo(l, topic, xs + [FillerExample(l, topic, |xs| + 1)])
  }

  /**
    * The examples after post-processing: with fewer than two, an empty list takes the
    * topic's examples when there are any, and fillers make up the rest.
    */
  function ExamplesFloor(l: Language, topic: string, examples: seq<CodeExample>): seq<CodeExample> {
    if |examples| >= 2 then examples
    else
      var topicExamples := TopicContent(l, topic).1;
      PadToTwo(l, topic, if !(topicExamples == []) && examples == [] then topicExamples else examples)
  }

  /** An exercise without test cases gets the generated ones; any other is left as it is. */
  function WithTests(l: Language, e: Exercise): (r: Exercise)
    ensures r.testCases != []
  {
    if e.testCases == [] then e.(testCases := GenerateTestCases(l, e.description, e.exampleOutput.UnwrapOr("")))
    else e
  }

  /** The exercises after post-processing: the fallback exercise when there are none, else each given tests. */
  function ExercisesFloor(l: Language, topic: string, exercises: seq<Exercise>): (r: seq<Exercise>)
    ensures exercises != [] ==> |r| == |exercises| && forall i :: 0 <= i < |r| ==> r[i] == WithTests(l, exercises[i])
  {
    if exercises == [] then [FallbackExercise(l, topic)]
    else seq(|exercises|, i requires 0 <= i < |exercises| => WithTests(l, exercises[i]))
  }

  function Floored(l: Language, topic: string, c: GeneratedContent): GeneratedContent {
    c.(codeExamples := ExamplesFloor(l, topic, c.codeExamples), exercises := ExercisesFloor(l, topic, c.exercises))
  }

  /** After post-processing: at least two examples, at least one exercise, and test cases on each. */
  lemma FlooredMeetsFloors(l: Language, topic: string, c: GeneratedContent)
    ensures |Floored(l, topic, c).codeExamples| >= 2
    ensures |Floored(l, topic, c).exercises| >= 1
    ensures forall i :: 0 <= i < |Floored(l, topic, c).exercises| ==> Floored(l, topic, c).exercises[i].testCases != []
  {
  }

  /**
    * Post-processing removes nothing: existing examples stay, in order, at the front, and the
    * topic's examples are used only when there were none; existing exercises stay in place and
    * only an empty test-case list is filled; the other fields are untouched.
    */
  lemma FlooredKeepsContent(l: Language, topic: string, c: GeneratedContent)
    ensures var f := Floored(l, topic, c);
      && f.concept == c.concept && f.stepByStep == c.stepByStep
      && f.syntaxGuide == c.syntaxGuide && f.commonPatterns == c.commonPatterns
      && (c.codeExamples != [] ==> f.codeExamples[..|c.codeExamples|] == c.codeExamples)
      && (c.codeExamples == [] && TopicContent(l, topic).1 != [] ==> f.codeExamples == TopicContent(l, topic).1)
      && (c.exercises != [] ==> |f.exercises| == |c.exercises|)
      && (forall i :: 0 <= i < |c.exercises| ==>
            f.exercises[i].(testCases := []) == c.exercises[i].(testCases := [])
            && (c.exercises[i].testCases != [] ==> f.exercises[i] == c.exercises[i]))
  {
    if c.codeExamples != [] && |c.codeExamples| < 2 {
      assert PadToTwo(l, topic, c.codeExamples)[..|c.codeExamples|] == c.codeExamples;
    }
  }

  /** Post-processing content that already meets the floors changes nothing, so doing it twice is doing it once. */
  lemma FlooredIdempotent(l: Language, topic: string, c: GeneratedContent)
    ensures Floored(l, topic, Floored(l, topic, c)) == Floored(l, topic, c)
  {
    var f := Floored(l, topic, c);
    FlooredMeetsFloors(l, topic, c);
    assert f.exercises != [];
    assert ExercisesFloor(l, topic, f.exercises) == f.exercises;
  }

  /** The post-processing block of `generate`, updating the content in place. */
  method EnsureFloors(l: Language, topic: string, content0: GeneratedContent) returns (content: GeneratedContent)
    ensures content == Floored(l, topic, content0)
  {
    content := content0;
    var examples := RaiseExamples(l, topic, content.codeExamples);
    content := content.(codeExamples := examples);
    if content.exercises == [] {
      content := content.(exercises := content.exercises + [FallbackExercise(l, topic)]);
    } else {
      var exercises := FillTestCases(l, content.exercises);
      content := content.(exercises := exercises);
    }
  }

  /** The example half of the block: the topic's examples for an empty list, then numbered fillers. */
  method RaiseExamples(l: Language, topic: string, examples0: seq<CodeExample>) returns (examples: seq<CodeExample>)
    ensures examples == ExamplesFloor(l, topic, examples0)
  {
    examples := examples0;
    if |examples| < 2 {
      var topicExamples := TopicContent(l, topic).1;
      if topicExamples != [] && examples == [] {
        examples := topicExamples;
      }
      ghost var start := examples;
      while |examples| < 2
        invariant PadToTwo(l, topic, examples) == PadToTwo(l, topic, start)
        decreases 2 - |examples|
      {
        var exampleNum := |examples| + 1;
        examples := examples + [FillerExample(l, topic, exampleNum)];
      }
    }
  }

  /** The exercise half of the block: each exercise without test cases gets generated ones. */
  method FillTestCases(l: Language, exercises0: seq<Exercise>) returns (exercises: seq<Exercise>)
    ensures |exercises| == |exercises0| && forall k :: 0 <= k < |exercises| ==> exercises[k] == WithTests(l, exercises0[k])
  {
    exercises := exercises0;
    for i := 0 to |exercises0|
      invariant |exercises| == |exercises0|
      invariant forall k :: 0 <= k < i ==> exercises[k] == WithTests(l, exercises0[k])
      invariant forall k :: i <= k < |exercises0| ==> exercises[k] == exercises0[k]
    {
      var exercise := exercises[i];
      if exercise.testCases == [] {
        var exampleOutput := exercise.exampleOutput.UnwrapOr("");
        exercise := exercise.(testCases := GenerateTestCases(l, exercise.description, exampleOutput));
        exercises := exercises[i := exercise];
      }
    }
  }

  /**
    * `generate` after the server has answered: the acquired content raised to its floors.
    * It never fails, whatever the reply.
    */
  method GenerateFromReply(l: Language, topic: string, response: string, rawResponse: Option<string>,
                           parses: JsonCheck, parse: Parser) returns (content: GeneratedContent)
    ensures content == Floored(l, topic, AcquiredContent(l, topic, response, rawResponse, parses, parse))
    ensures |content.codeExamples| >= 2 && |content.exercises| >= 1
  {
    var extracted := ExtractJson(response, parses);
    var json := "";
    if extracted.Ok? {
      json := extracted.value;
    } else if rawResponse.Some? {
      var again := ExtractJson(rawResponse.value, parses);
      if again.Ok? {
        json := again.value;
      }
    }
    assert json == JsonText(response, rawResponse, parses);
    var acquired;
    if json == "" {
      acquired := CreateFallbackFromResponse(l, topic, response);
    } else {
      var decoded := FromJson(json, parse);
      if decoded.Ok? {
        acquired := decoded.value;
      } else {
        acquired := CreateFallbackFromResponse(l, topic, response);
      }
    }
    content := EnsureFloors(l, topic, acquired);
    FlooredMeetsFloors(l, topic, acquired);
  }
}
