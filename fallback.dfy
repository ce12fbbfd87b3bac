/**
  * The content built when the model's reply yields no usable JSON (the fallback builders of
  * src/ollama/generator.rs): a fixed three-case test generator, first-match-wins topic tables,
  * and the mining of a free-text reply for a concept line, numbered steps and code blocks.
  */
module Fallback {
  import opened Wrappers
  import opened Text
  import opened Languages
  import opened Formatter

  function Min(a: nat, b: nat): nat {
    if a <= b then a else b
  }

  // Test cases for an exercise.

  /** Whether a description asks the learner to read input, judged on its lowercase form. */
  predicate AsksForInput(description: string) {
    var lower := ToLower(description);
    Contains(lower, "read input") || Contains(lower, "read from stdin") || Contains(lower, "input from")
  }

  /**
    * `generate_test_cases_for_exercise`: always three cases. For a description that asks for
    * input, the inputs 5, 10 and 42 with the example output adapted to the first two; otherwise
    * three cases with no input that all expect the example output.
    */
  function GenerateTestCases(l: Language, description: string, exampleOutput: string): (r: seq<TestCase>)
    ensures |r| == 3
    ensures r[2].output == exampleOutput
    ensures AsksForInput(description) ==> r[0].input == "5" && r[1].input == "10" && r[2].input == "42"
    ensures AsksForInput(description) ==> forall k :: 0 <= k < 2 ==>
      r[k].output == Replace(Replace(exampleOutput, "42", r[k].input), "test", r[k].input)
    ensures !AsksForInput(description) ==> forall i :: 0 <= i < 3 ==> r[i] == TestCase("", exampleOutput)
  {
    if AsksForInput(description) then
      [ TestCase("5", Replace(Replace(exampleOutput, "42", "5"), "test", "5")),
        TestCase("10", Replace(Replace(exampleOutput, "42", "10"), "test", "10")),
        TestCase("42", exampleOutput) ]
    else
      [ TestCase("", exampleOutput), TestCase("", exampleOutput), TestCase("", exampleOutput) ]
  }

  /**
    * When the example output mentions neither "42" nor "test", every generated case expects
    * exactly the example output, whatever the description.
    */
  lemma GeneratedOutputsMatchExample(l: Language, description: string, exampleOutput: string)
    requires !Contains(exampleOutput, "42") && !Contains(exampleOutput, "test")
    ensures forall i :: 0 <= i < 3 ==> GenerateTestCases(l, description, exampleOutput)[i].output == exampleOutput
  {
    ReplaceAbsent(exampleOutput, "42", "5");
    ReplaceAbsent(exampleOutput, "test", "5");
    ReplaceAbsent(exampleOutput, "42", "10");
    ReplaceAbsent(exampleOutput, "test", "10");
  }

  /**
    * For an example output without "test", all three cases asking for input follow one rule:
    * the expected output is the example output with every "42" replaced by the case's input.
    */
  lemma GeneratedOutputsFollowInput(l: Language, description: string, exampleOutput: string)
    requires AsksForInput(description) && !Contains(exampleOutput, "test")
    ensures forall k :: 0 <= k < 3 ==>
      GenerateTestCases(l, description, exampleOutput)[k].output
        == Replace(exampleOutput, "42", GenerateTestCases(l, description, exampleOutput)[k].input)
  {
    var r := GenerateTestCases(l, description, exampleOutput);
    ReplaceKeepsAbsent(exampleOutput, "42", "5", "test");
    ReplaceAbsent(Replace(exampleOutput, "42", "5"), "test", "5");
    ReplaceKeepsAbsent(exampleOutput, "42", "10", "test");
    ReplaceAbsent(Replace(exampleOutput, "42", "10"), "test", "10");
    ReplaceBySelf(exampleOutput, "42");
  }

  /** The generated inputs are pairwise distinct exactly when the description asks for input. */
  lemma GeneratedInputsDistinctIffAsked(l: Language, description: string, exampleOutput: string)
    ensures var r := GenerateTestCases(l, description, exampleOutput);
      (r[0].input != r[1].input && r[1].input != r[2].input && r[0].input != r[2].input)
      <==> AsksForInput(description)
  {
  }

  // Topic-specific guides and examples.

  /** The keywords that select the control-flow material. */
  predicate MentionsControlFlow(lower: string) {
    Contains(lower, "control flow") || Contains(lower, "controlflow") || Contains(lower, "condition")
    || Contains(lower, "if") || Contains(lower, "else")
  }

  predicate MentionsVariables(lower: string) {
    Contains(lower, "variable") || Contains(lower, "mutability")
  }

  datatype TopicKind = RandomTopic | VariableTopic | ControlFlowTopic | OtherTopic

  /**
    * The topic as the guide table classifies it, first match wins: "random", then (for Rust
    * only) the variable words, then the control-flow words, which include the bare "if".
    */
  function GuideTopic(l: Language, topic: string): TopicKind {
    var lower := ToLower(topic);
    if Contains(lower, "random") then RandomTopic
    else if l == Rust && MentionsVariables(lower) then VariableTopic
    else if MentionsControlFlow(lower) then ControlFlowTopic
    else OtherTopic
  }

  /** `generate_topic_specific_content`: a syntax guide and two examples for a known topic, else nothing. */
  function TopicContent(l: Language, topic: string): (r: (string, seq<CodeExample>))
    ensures r.0 == "" <==> r.1 == []
    ensures r.1 == [] || |r.1| == 2
  {
    var lower := ToLower(topic);
    match l
    case Rust =>
      if Contains(lower, "random") then RustRandomMaterial
      else if Contains(lower, "variable") || Contains(lower, "mutability") then RustVariableMaterial
      else if MentionsControlFlow(lower) then RustControlFlowMaterial
      else ("", [])
    case JavaScript =>
      if Contains(lower, "random") then JavaScriptRandomMaterial
      else if MentionsControlFlow(lower) then JavaScriptControlFlowMaterial
      else ("", [])
    case Cpp =>
      if Contains(lower, "random") then CppRandomMaterial
      else if MentionsControlFlow(lower) then CppControlFlowMaterial
      else ("", [])
  }

  // The guide and the two examples for each recognised topic.

  const RustRandomMaterial: (string, seq<CodeExample>) :=
    ("To generate random numbers in Rust, use the `rand` crate. Use `use rand::Rng;` and `let mut rng = rand::thread_rng();` to create a random number generator. Generate random numbers with `rng.gen_range(1..=100)` for a range, or `rng.gen::<i32>()` for a random integer.",
     [CodeExample("use rand::Rng;\n\nfn main() {\n    let mut rng = rand::thread_rng();\n    let random_num = rng.gen_range(1..=100);\n    println!(\"Random number: {}\", random_num);\n}", "This example shows how to generate a random number between 1 and 100 using the rand crate. The rand dependency will be automatically added to Cargo.toml when you run your code."),
      CodeExample("use rand::Rng;\n\nfn main() {\n    let mut rng = rand::thread_rng();\n    let random_float = rng.gen::<f64>();\n    println!(\"Random float: {}\", random_float);\n}", "This example shows how to generate a random float using gen::<f64>(). This generates a random floating-point number between 0.0 and 1.0.")])

  const RustVariableMaterial: (string, seq<CodeExample>) :=
    ("In Rust, declare variables with `let`. By default, variables are immutable. Use `let mut` to make them mutable. For example: `let x = 5;` creates an immutable variable, while `let mut y = 5;` creates a mutable one. Attempting to modify an immutable variable will cause a compile error.",
     [CodeExample("fn main() {\n    let name = \"Alice\";\n    println!(\"Hello, {}!\", name);\n}", "This declares an immutable variable `name` and prints it. The variable cannot be changed after declaration."),
      CodeExample("fn main() {\n    let mut count = 0;\n    count += 1;\n    println!(\"Count: {}\", count);\n}", "This example shows a mutable variable using `let mut`. The variable can be modified after declaration.")])

  const RustControlFlowMaterial: (string, seq<CodeExample>) :=
    ("Control flow in Rust uses `if`, `else if`, and `else` statements. The condition must be a boolean expression. You can also use `match` for pattern matching. For example: `if x > 5 { println!(\"Greater\"); } else { println!(\"Less or equal\"); }`",
     [CodeExample("fn main() {\n    let number = 7;\n    if number > 5 {\n        println!(\"The number is greater than 5\");\n    } else {\n        println!(\"The number is 5 or less\");\n    }\n}", "This example demonstrates a basic if-else statement that checks if a number is greater than 5."),
      CodeExample("fn main() {\n    let score = 85;\n    if score >= 90 {\n        println!(\"Grade: A\");\n    } else if score >= 80 {\n        println!(\"Grade: B\");\n    } else {\n        println!(\"Grade: C\");\n    }\n}", "This example shows an if-else-if chain with multiple conditions to determine a grade based on score.")])

  const JavaScriptRandomMaterial: (string, seq<CodeExample>) :=
    ("In JavaScript, use `Math.random()` to generate a random number between 0 and 1. Multiply by a range and use `Math.floor()` to get integers. For example: `Math.floor(Math.random() * 100) + 1` generates a number between 1 and 100.",
     [CodeExample("const randomNum = Math.floor(Math.random() * 100) + 1;\nconsole.log(`Random number: ${randomNum}`);", "This generates a random integer between 1 and 100 using Math.random()."),
      CodeExample("function getRandomInRange(min, max) {\n    return Math.floor(Math.random() * (max - min + 1)) + min;\n}\nconst num = getRandomInRange(10, 20);\nconsole.log(`Random number between 10 and 20: ${num}`);", "This example shows a reusable function to generate random numbers within a custom range.")])

  const JavaScriptControlFlowMaterial: (string, seq<CodeExample>) :=
    ("Control flow in JavaScript uses `if`, `else if`, and `else` statements. Conditions can be any expression that evaluates to a truthy or falsy value. For example: `if (x > 5) { console.log('Greater'); } else { console.log('Less or equal'); }`",
     [CodeExample("const number = 7;\nif (number > 5) {\n    console.log('The number is greater than 5');\n} else {\n    console.log('The number is 5 or less');\n}", "This example demonstrates a basic if-else statement that checks if a number is greater than 5."),
      CodeExample("const age = 18;\nif (age >= 18) {\n    console.log('You are an adult');\n} else if (age >= 13) {\n    console.log('You are a teenager');\n} else {\n    console.log('You are a child');\n}", "This example shows an if-else-if chain with multiple conditions to categorize age groups.")])

  const CppRandomMaterial: (string, seq<CodeExample>) :=
    ("In C++, include `<random>` and `<ctime>`. Use `std::mt19937` for the random number generator, seed it with `std::random_device{}()`, and use `std::uniform_int_distribution<>` to generate numbers in a range. For example: `std::uniform_int_distribution<> dis(1, 100);` then `dis(gen)` to get a random number.",
     [CodeExample("#include <iostream>\n#include <random>\n\nint main() {\n    std::random_device rd;\n    std::mt19937 gen(rd());\n    std::uniform_int_distribution<> dis(1, 100);\n    int random_num = dis(gen);\n    std::cout << \"Random number: \" << random_num << std::endl;\n    return 0;\n}", "This example shows how to generate a random number between 1 and 100 using C++'s random library."),
      CodeExample("#include <iostream>\n#include <random>\n\nint main() {\n    std::random_device rd;\n    std::mt19937 gen(rd());\n    std::uniform_real_distribution<double> dis(0.0, 1.0);\n    double random_float = dis(gen);\n    std::cout << \"Random float: \" << random_float << std::endl;\n    return 0;\n}", "This example shows how to generate a random floating-point number between 0.0 and 1.0 using uniform_real_distribution.")])

  const CppControlFlowMaterial: (string, seq<CodeExample>) :=
    ("Control flow in C++ uses `if`, `else if`, and `else` statements. Conditions must evaluate to a boolean value. For example: `if (x > 5) { std::cout << \"Greater\"; } else { std::cout << \"Less or equal\"; }`",
     [CodeExample("#include <iostream>\n\nint main() {\n    int number = 7;\n    if (number > 5) {\n        std::cout << \"The number is greater than 5\" << std::endl;\n    } else {\n        std::cout << \"The number is 5 or less\" << std::endl;\n    }\n    return 0;\n}", "This example demonstrates a basic if-else statement that checks if a number is greater than 5."),
      CodeExample("#include <iostream>\n\nint main() {\n    int temperature = 25;\n    if (temperature > 30) {\n        std::cout << \"It's hot\" << std::endl;\n    } else if (temperature > 20) {\n        std::cout << \"It's warm\" << std::endl;\n    } else {\n        std::cout << \"It's cool\" << std::endl;\n    }\n    return 0;\n}", "This example shows an if-else-if chain with multiple conditions to categorize temperature ranges.")])

  /**
    * The guide table yields material exactly for the recognised topics, and what it yields
    * depends only on the topic's classification, so the first matching keyword decides.
    */
  lemma TopicContentByKind(l: Language, topic: string, other: string)
    ensures TopicContent(l, topic).1 == [] <==> GuideTopic(l, topic) == OtherTopic
    ensures GuideTopic(l, topic) == GuideTopic(l, other) ==> TopicContent(l, topic) == TopicContent(l, other)
  {
  }

  // The fallback exercise.

  /**
    * The topic as the exercise table classifies it, first match wins: the variable words
    * come before "random" here, the reverse of the guide table.
    */
  function ExerciseTopic(topic: string): TopicKind {
    var lower := ToLower(topic);
    if MentionsVariables(lower) then VariableTopic
    else if Contains(lower, "random") then RandomTopic
    else OtherTopic
  }

  /** The description, hints and example output of `create_fallback_exercise_with_tests`. */
  function ExerciseParts(l: Language, topic: string): (r: (string, seq<string>, string))
    ensures |r.1| >= 2
  {
    var lower := ToLower(topic);
    if Contains(lower, "variable") || Contains(lower, "mutability") then VariableExerciseParts(l)
    else if Contains(lower, "random") then RandomExerciseParts(l)
    else
      ("Write code in " + DisplayName(l) + " to demonstrate your understanding of " + topic
         + ". Refer to the explanations and examples above.",
       ["Review the code examples above", "Start with a simple implementation"],
       "Output demonstrating " + topic)
  }

  const RustVariableExercise: (string, seq<string>, string) :=
    ("Declare a variable in Rust. Use `let` to create an immutable variable with a value, then print it using `println!()`. For example, declare a variable `name` with your name and print it.", ["Use `let variable_name = value;` to declare a variable", "Use `println!(\"text {{}}\", variable_name);` to print the variable"], "Your name")

  const JavaScriptVariableExercise: (string, seq<string>, string) :=
    ("Declare a variable in JavaScript using `let`, `const`, or `var`. Assign it a value and print it using `console.log()`.", ["Use `let variableName = value;` to declare a variable", "Use `console.log(variableName);` to print it"], "The value of your variable")

  const CppVariableExercise: (string, seq<string>, string) :=
    ("Declare a variable in C++ with a type and value, then print it using `cout`.", ["Use `type variableName = value;` to declare a variable", "Use `std::cout << variableName << std::endl;` to print it"], "The value of your variable")

  function VariableExerciseParts(l: Language): (r: (string, seq<string>, string))
    ensures |r.1| == 2
  {
    match l
    case Rust => RustVariableExercise
    case JavaScript => JavaScriptVariableExercise
    case Cpp => CppVariableExercise
  }

  const RustRandomExercise: (string, seq<string>, string) :=
    ("Generate a random number in Rust using the `rand` crate. Use `rand::Rng` and generate a random number between 1 and 100, then print it.", ["Use `use rand::Rng;` to import the Rng trait", "Use `let mut rng = rand::thread_rng();` to create a generator", "Use `rng.gen_range(1..=100)` to generate a number"], "Random number between 1 and 100: 42")

  const JavaScriptRandomExercise: (string, seq<string>, string) :=
    ("Generate a random number in JavaScript using `Math.random()`. Generate a number between 1 and 100 and print it.", ["Use `Math.random()` to get a number between 0 and 1", "Multiply by 100 and use `Math.floor()` to get an integer"], "Random number between 1 and 100: 42")

  const CppRandomExercise: (string, seq<string>, string) :=
    ("Generate a random number in C++ using `<random>`. Generate a number between 1 and 100 and print it.", ["Include `<random>` header", "Use `std::mt19937` and `std::uniform_int_distribution`"], "Random number between 1 and 100: 42")

  function RandomExerciseParts(l: Language): (r: (string, seq<string>, string))
    ensures |r.1| >= 2
  {
    match l
    case Rust => RustRandomExercise
    case JavaScript => JavaScriptRandomExercise
    case Cpp => CppRandomExercise
  }

  /**
    * `create_fallback_exercise_with_tests`: "Practice: {topic}", an empty example input, and
    * the generated test cases for its own description and example output.
    */
  function FallbackExercise(l: Language, topic: string): (e: Exercise)
    ensures e.title == "Practice: " + topic
    ensures e.exampleInput == Some("") && e.exampleOutput.Some?
    ensures |e.hints| >= 2 && |e.testCases| == 3
    ensures e.testCases == GenerateTestCases(l, e.description, e.exampleOutput.value)
  {
    var (description, hints, exampleOutput) := ExerciseParts(l, topic);
    Exercise("Practice: " + topic, description, hints, Some(""), Some(exampleOutput),
             GenerateTestCases(l, description, exampleOutput))
  }

  /** Apart from the title, the exercise depends only on how its table classifies the topic. */
  lemma FallbackExerciseByKind(l: Language, topic: string, other: string)
    requires ExerciseTopic(topic) == ExerciseTopic(other) != OtherTopic
    ensures FallbackExercise(l, topic).(title := "") == FallbackExercise(l, other).(title := "")
  {
  }

  /** Lowercasing text without capitals leaves it unchanged. */
  lemma ToLowerOfLower(s: string)
    requires forall i :: 0 <= i < |s| ==> !('A' <= s[i] <= 'Z')
    ensures ToLower(s) == s
  {
  }

  /**
    * The two tables disagree on a Rust topic that names both: "random variables" gets the
    * random-number guide but the variable exercise.
    */
  lemma TablesDisagreeOnRandomVariables()
    ensures GuideTopic(Rust, "random variables") == RandomTopic
    ensures ExerciseTopic("random variables") == VariableTopic
  {
    ToLowerOfLower("random variables");
    ContainsMiddle("", "random", " variables");
    assert "" + "random" + " variables" == "random variables";
    ContainsMiddle("random ", "variable", "s");
    assert "random " + "variable" + "s" == "random variables";
  }

  // Mining a free-text reply.

  function DefaultConcept(l: Language, topic: string): string {
    "An introduction to " + topic + " in " + DisplayName(l) + "."
  }

  /**
    * The concept line: after the first "concept" (found case-insensitively), within 300
    * characters, the first line after the next colon, trimmed; kept only when it is longer
    * than 20 and shorter than 500 characters.
    */
  function MinedConcept(response: string): (r: Option<string>)
    ensures r.Some? ==> 20 < |r.value| < 500
    ensures r.Some? ==> forall i :: 0 <= i < |r.value| ==> r.value[i] != '\n'
  {
    match Find(ToLower(response), "concept")
    case None => None
    case Some(cs) =>
      var section := response[cs..Min(cs + 300, |response|)];
      match Find(section, ":")
      case None => None
      case Some(colon) =>
        var extracted := Trim(section[colon + 1..]);
        var line := FirstLine(extracted).UnwrapOr(extracted);
        if 20 < |line| < 500 then Some(line) else None
  }

  function StepPattern(i: nat): string {
    "step " + NatToString(i) + ":"
  }

  /** The line kept for step `i`: "Step {i}: " and the text. */
  function StepLine(i: nat, text: string): (r: string)
    ensures StartsWith(r, "Step ")
  {
    "Step " + NatToString(i) + ": " + text
  }

  /**
    * Step `i` of a section: the rest of the line after "step {i}:" (found case-insensitively),
    * trimmed, when that line ends with a line feed and is non-empty and shorter than 200.
    */
  function MinedStep(section: string, i: nat): (r: Option<string>)
    ensures r.Some? ==> StartsWith(r.value, "Step ")
  {
    var pattern := StepPattern(i);
    match Find(ToLower(section), pattern)
    case None => None
    case Some(pos) =>
      var stepText := section[pos + |pattern|..];
      match Find(stepText, "\n")
      case None => None
      case Some(lineEnd) =>
        var step := Trim(stepText[..lineEnd]);
        if step != [] && |step| < 200 then Some(StepLine(i, step)) else None
  }

  /** The steps numbered 1 to `n - 1` that the section holds, in number order. */
  function MinedStepsBefore(section: string, n: nat): (r: seq<string>)
    requires 1 <= n <= 7
    ensures |r| <= n - 1
    ensures forall k :: 0 <= k < |r| ==> StartsWith(r[k], "Step ")
  {
    if n == 1 then []
    else
      var earlier := MinedStepsBefore(section, n - 1);
      match MinedStep(section, n - 1)
      case Some(s) => earlier + [s]
      case None => earlier
  }

  /** The steps of the 500 characters from the first "step" (found case-insensitively). */
  function MinedSteps(response: string): (r: seq<string>)
    ensures |r| <= 6
    ensures forall k :: 0 <= k < |r| ==> StartsWith(r[k], "Step ")
  {
    match Find(ToLower(response), "step")
    case None => []
    case Some(ss) => MinedStepsBefore(response[ss..Min(ss + 500, |response|)], 7)
  }


  function DefaultStepsFor(topic: string): (r: seq<string>)
    ensures |r| == 3
  {
    ["Step 1: Understand the concept of " + topic + ".",
     "Step 2: Review examples and syntax.",
     "Step 3: Practice with exercises."]
  }

  /** The explanation given to every mined code block. */
  function BlockExplanation(l: Language, topic: string): string {
    "Example code demonstrating " + topic + " in " + DisplayName(l) + "."
  }

  /**
    * The code block at offset `actual` (where a "```" starts): within 1000 characters, the
    * text up to the next "```", trimmed; kept when it is non-empty, shorter than 500 and does
    * not start with `{`.
    */
  function MinedBlock(l: Language, topic: string, response: string, actual: nat): Option<CodeExample>
    requires actual + 3 <= |response|
  {
    var block := response[actual..Min(actual + 1000, |response|)];
    match Find(block[3..], "```")
    case None => None
    case Some(codeEnd) =>
      var code := Trim(block[3..codeEnd + 3]);
      if !StartsWith(code, "{") && code != [] && |code| < 500 then
        Some(CodeExample(code, BlockExplanation(l, topic)))
      else None
  }

  /**
    * The code blocks from the marker `marker` on (none when there is no marker left), appended
    * to `found`, stopping as soon as two have been kept; after each marker the search for the
    * next one resumes three characters later.
    */
  function MinedBlocksAt(l: Language, topic: string, response: string, marker: Option<nat>, found: seq<CodeExample>): (r: seq<CodeExample>)
    requires marker.Some? ==> marker.value + 3 <= |response|
    requires |found| <= 1
    ensures |found| <= |r| <= 2 && r[..|found|] == found
    decreases if marker.Some? then |response| - marker.value else 0
  {
    match marker
    case None => found
    case Some(actual) =>
      var next := FindFrom(response, "```", actual + 3);
      match MinedBlock(l, topic, response, actual)
      case Some(e) =>
        if |found| + 1 >= 2 then found + [e]
        else MinedBlocksAt(l, topic, response, next, found + [e])
      case None => MinedBlocksAt(l, topic, response, next, found)
  }

  /** One marker of the block search: its block, if kept, joins the others. */
  lemma MinedBlocksAtMarker(l: Language, topic: string, response: string, actual: nat, found: seq<CodeExample>)
    requires actual + 3 <= |response| && |found| <= 1
    ensures var next := FindFrom(response, "```", actual + 3);
      var block := MinedBlock(l, topic, response, actual);
      && (block.None? ==> MinedBlocksAt(l, topic, response, Some(actual), found) == MinedBlocksAt(l, topic, response, next, found))
      && (block.Some? && |found| == 1 ==> MinedBlocksAt(l, topic, response, Some(actual), found) == found + [block.value])
      && (block.Some? && |found| == 0 ==>
            MinedBlocksAt(l, topic, response, Some(actual), found) == MinedBlocksAt(l, topic, response, next, found + [block.value]))
  {
  }

  /** The code blocks of the whole reply: the search starts at its first marker. */
  function MinedBlocks(l: Language, topic: string, response: string): (r: seq<CodeExample>)
    ensures |r| <= 2
  {
    MinedBlocksAt(l, topic, response, FindFrom(response, "```", 0), [])
  }

  /** The examples after padding: the mined ones, else the topic's; a variation or two basic ones make up two. */
  function PaddedExamples(l: Language, topic: string, mined: seq<CodeExample>, topicExamples: seq<CodeExample>): seq<CodeExample> {
    var examples := if mined == [] && topicExamples != [] then topicExamples else mined;
    if |examples| >= 2 then examples
    else if examples != [] then
      examples + [CodeExample("// Variation of the example above\n" + examples[0].code,
                              "Another example demonstrating " + topic + " in " + DisplayName(l) + ".")]
    else
      [CodeExample("// Basic example for " + topic + " in " + DisplayName(l),
                   "Example code demonstrating " + topic + " in " + DisplayName(l) + "."),
       CodeExample("// Another example for " + topic + " in " + DisplayName(l),
                   "Another example showing " + topic + " in " + DisplayName(l) + ".")]
  }

  /** The syntax guide: the topic's, else a generic sentence that points to the examples when there are any. */
  function FallbackGuide(l: Language, topic: string, topicGuide: string, examples: seq<CodeExample>): (r: string)
    ensures r != ""
  {
    if topicGuide != "" then topicGuide
    else if examples != [] then
      "Basic syntax for " + topic + " in " + DisplayName(l) + ". Refer to the code examples above for specific syntax patterns."
    else "Basic syntax for " + topic + " in " + DisplayName(l) + "."
  }

  /** The description, hints and example output of the exercise `create_fallback_from_response` builds. */
  function ResponseExerciseParts(l: Language, topic: string, hasExamples: bool): (string, seq<string>, string) {
    var lower := ToLower(topic);
    if Contains(lower, "variable") || Contains(lower, "mutability") then ResponseVariableExerciseParts(l)
    else
      (if hasExamples then
         "Write a simple program in " + DisplayName(l) + " that demonstrates " + topic + ". Use the examples above as a reference."
       else "Write a simple program in " + DisplayName(l) + " that demonstrates " + topic + ".",
       (if hasExamples then ["Review the code examples above"] else [])
         + ["Start with a basic " + DisplayName(l) + " program", "Make sure your code compiles and runs", "Focus on demonstrating " + topic],
       "Output demonstrating " + topic)
  }

  const RustResponseVariableExercise: (string, seq<string>, string) :=
    ("Declare a variable in Rust. Use `let` to create an immutable variable with a value, then print it using `println!()`. For example, declare a variable `name` with your name and print it.", ["Use `let variable_name = value;` to declare a variable", "Use `println!(\"text {{}}\", variable_name);` to print the variable", "Remember: variables without `mut` cannot be changed"], "Your name")

  const JavaScriptResponseVariableExercise: (string, seq<string>, string) :=
    ("Declare a variable in JavaScript using `let`, `const`, or `var`. Assign it a value and print it using `console.log()`.", ["Use `let variableName = value;` to declare a variable", "Use `console.log(variableName);` to print it"], "The value of your variable")

  const CppResponseVariableExercise: (string, seq<string>, string) :=
    ("Declare a variable in C++. Use the appropriate type (int, string, etc.), assign it a value, and print it using `cout`.", ["Use `type variable_name = value;` to declare a variable", "Use `cout << variable_name << endl;` to print it"], "The value of your variable")

  function ResponseVariableExerciseParts(l: Language): (string, seq<string>, string)
  {
    match l
    case Rust => RustResponseVariableExercise
    case JavaScript => JavaScriptResponseVariableExercise
    case Cpp => CppResponseVariableExercise
  }

  /** What `create_fallback_from_response` builds from the reply. */
  function FallbackFromResponse(l: Language, topic: string, response: string): GeneratedContent {
    var concept := MinedConcept(response).UnwrapOr(DefaultConcept(l, topic));
    var mined := MinedSteps(response);
    var steps := if mined == [] then DefaultStepsFor(topic) else mined;
    var (topicGuide, topicExamples) := TopicContent(l, topic);
    var examples := PaddedExamples(l, topic, MinedBlocks(l, topic, response), topicExamples);
    var guide := FallbackGuide(l, topic, topicGuide, examples);
    var (description, hints, exampleOutput) := ResponseExerciseParts(l, topic, examples != []);
    var exercise := Exercise("Practice: " + topic, description, hints, Some(""), Some(exampleOutput),
                             GenerateTestCases(l, description, exampleOutput));
    GeneratedContent(concept, steps, examples, guide, [], [exercise])
  }

  /**
    * The fallback lesson always has two examples, one to six steps (the three default steps
    * when none were mined), a non-empty guide, no common patterns and one practice exercise
    * with an empty example input; its concept is the mined line when there is one.
    */
  lemma FallbackFromResponseShape(l: Language, topic: string, response: string)
    ensures var c := FallbackFromResponse(l, topic, response);
      && |c.codeExamples| == 2
      && 1 <= |c.stepByStep| <= 6
      && (MinedSteps(response) == [] ==> c.stepByStep == DefaultStepsFor(topic))
      && c.syntaxGuide != "" && c.commonPatterns == []
      && |c.exercises| == 1 && c.exercises[0].title == "Practice: " + topic
      && c.exercises[0].exampleInput == Some("") && |c.exercises[0].testCases| == 3
      && c.concept == (if MinedConcept(response).Some? then MinedConcept(response).value else DefaultConcept(l, topic))
  {
    var mined := MinedBlocks(l, topic, response);
    var topicExamples := TopicContent(l, topic).1;
    assert |PaddedExamples(l, topic, mined, topicExamples)| == 2;
  }

  // The mining code of `create_fallback_from_response`.

  /** The numbered-step loop: for `i` from 1 to 6, the step line when there is one. */
  method MineSteps(response: string) returns (steps: seq<string>)
    ensures steps == MinedSteps(response)
  {
    steps := [];
    var stepStart := Find(ToLower(response), "step");
    if stepStart.Some? {
      var ss := stepStart.value;
      var section := response[ss..Min(ss + 500, |response|)];
      for i := 1 to 7
        invariant steps == MinedStepsBefore(section, i)
      {
        var step := MinedStep(section, i);
        if step.Some? {
          steps := steps + [step.value];
        }
      }
    }
  }

  /** The code-block loop: every "```" in turn, until two blocks have been kept. */
  method MineCodeBlocks(l: Language, topic: string, response: string) returns (examples: seq<CodeExample>)
    ensures examples == MinedBlocks(l, topic, response)
  {
    examples := [];
    var codeStart := 0;
    var codePos := FindFrom(response, "```", codeStart);
    while codePos.Some?
      invariant codePos.Some? ==> codePos.value + 3 <= |response|
      invariant |examples| <= 1
      invariant MinedBlocksAt(l, topic, response, codePos, examples) == MinedBlocks(l, topic, response)
      decreases if codePos.Some? then |response| - codePos.value else 0
    {
      var actual := codePos.value;
      var block := MinedBlock(l, topic, response, actual);
      MinedBlocksAtMarker(l, topic, response, actual, examples);
      if block.Some? {
        examples := examples + [block.value];
        if |examples| >= 2 {
          return;
        }
      }
      codeStart := actual + 3;
      codePos := FindFrom(response, "```", codeStart);
    }
  }

  /** The concept: the default sentence, replaced by the mined line when there is one. */
  method MineConcept(l: Language, topic: string, response: string) returns (concept: string)
    ensures concept == MinedConcept(response).UnwrapOr(DefaultConcept(l, topic))
  {
    concept := DefaultConcept(l, topic);
    var conceptStart := Find(ToLower(response), "concept");
    if conceptStart.Some? {
      var cs := conceptStart.value;
      var section := response[cs..Min(cs + 300, |response|)];
      var colon := Find(section, ":");
      if colon.Some? {
        var extracted := Trim(section[colon.value + 1..]);
        var conceptText := FirstLine(extracted).UnwrapOr(extracted);
        if 20 < |conceptText| < 500 {
          concept := conceptText;
        }
      }
    }
  }

  /** The example padding of `create_fallback_from_response`. */
  method PadExamples(l: Language, topic: string, mined: seq<CodeExample>, topicExamples: seq<CodeExample>) returns (codeExamples: seq<CodeExample>)
    ensures codeExamples == PaddedExamples(l, topic, mined, topicExamples)
  {
    codeExamples := mined;
    if codeExamples == [] && topicExamples != [] {
      codeExamples := topicExamples;
    }
    if |codeExamples| < 2 {
      if codeExamples != [] {
        var secondCode := "// Variation of the example above\n" + codeExamples[0].code;
        codeExamples := codeExamples + [CodeExample(secondCode, "Another example demonstrating " + topic + " in " + DisplayName(l) + ".")];
      } else {
        codeExamples := codeExamples + [CodeExample("// Basic example for " + topic + " in " + DisplayName(l),
                                                    "Example code demonstrating " + topic + " in " + DisplayName(l) + ".")];
        codeExamples := codeExamples + [CodeExample("// Another example for " + topic + " in " + DisplayName(l),
                                                    "Another example showing " + topic + " in " + DisplayName(l) + ".")];
      }
    }
  }

  /**
    * `create_fallback_from_response`: the mined concept, steps and code blocks, made up with
    * defaults and the topic's material; it always succeeds.
    */
  method CreateFallbackFromResponse(l: Language, topic: string, response: string) returns (content: GeneratedContent)
    ensures content == FallbackFromResponse(l, topic, response)
  {
    var concept := MineConcept(l, topic, response);
    var stepByStep := MineSteps(response);
    var codeExamples := MineCodeBlocks(l, topic, response);
    if stepByStep == [] {
      stepByStep := DefaultStepsFor(topic);
    }
    var (syntaxGuide, topicExamples) := TopicContent(l, topic);
    codeExamples := PadExamples(l, topic, codeExamples, topicExamples);
    if syntaxGuide == "" {
      if codeExamples != [] {
        syntaxGuide := "Basic syntax for " + topic + " in " + DisplayName(l) + ". Refer to the code examples above for specific syntax patterns.";
      } else {
        syntaxGuide := "Basic syntax for " + topic + " in " + DisplayName(l) + ".";
      }
    }
    var (description, hints, exampleOutput) := ResponseExerciseParts(l, topic, codeExamples != []);
    var testCases := GenerateTestCases(l, description, exampleOutput);
    var exercise := Exercise("Practice: " + topic, description, hints, Some(""), Some(exampleOutput), testCases);
    content := GeneratedContent(concept, stepByStep, codeExamples, syntaxGuide, [], [exercise]);
  }
}
