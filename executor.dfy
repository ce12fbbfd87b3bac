/**
  * Running an exercise file and judging its output (src/execution/executor.rs). The three
  * language runners start external processes; here each is a function from the file and
  * the optional standard input to the captured output or an error message.
  */
module Executor {
  import opened Wrappers
  import opened Text
  import opened Languages
  import opened FileManager

  type Runner = (Path, Option<string>) -> Result<string, string>

  datatype ExecutionResult = ExecutionResult(output: string)

  /** The runner `Executor::execute` dispatches to for a language. */
  function RunnerFor(l: Language, js: Runner, cpp: Runner, rust: Runner): Runner {
    match l
    case JavaScript => js
    case Cpp => cpp
    case Rust => rust
  }

  /**
    * `Executor::execute`: runs the file with the language's own runner; a success carries
    * exactly the runner's output and a failure exactly the runner's error.
    */
  function Execute(l: Language, file: Path, input: Option<string>, js: Runner, cpp: Runner, rust: Runner)
    : (r: Result<ExecutionResult, string>)
    ensures l == JavaScript ==> (r.Ok? <==> js(file, input).Ok?)
    ensures l == Cpp ==> (r.Ok? <==> cpp(file, input).Ok?)
    ensures l == Rust ==> (r.Ok? <==> rust(file, input).Ok?)
    ensures r.Ok? ==> Ok(r.value.output) == RunnerFor(l, js, cpp, rust)(file, input)
    ensures r.Err? ==> Err(r.error) == RunnerFor(l, js, cpp, rust)(file, input)
  {
    match RunnerFor(l, js, cpp, rust)(file, input)
    case Ok(output) => Ok(ExecutionResult(output))
    case Err(e) => Err(e)
  }

  /** `Executor::compare_output`: equal once leading and trailing whitespace is trimmed. */
  predicate CompareOutput(actual: string, expected: string) {
    Trim(actual) == Trim(expected)
  }

  /** Output comparison is an equivalence relation. */
  lemma CompareOutputIsEquivalence(a: string, b: string, c: string)
    ensures CompareOutput(a, a)
    ensures CompareOutput(a, b) ==> CompareOutput(b, a)
    ensures CompareOutput(a, b) && CompareOutput(b, c) ==> CompareOutput(a, c)
  {
  }

  /** Whitespace around the program's output (a trailing newline, say) never fails a test. */
  lemma CompareOutputIgnoresSurroundingWhitespace(w1: string, actual: string, w2: string, expected: string)
    requires IsBlank(w1) && IsBlank(w2)
    ensures CompareOutput(w1 + actual + w2, expected) <==> CompareOutput(actual, expected)
  {
    TrimIgnoresSurroundingWhitespace(w1, actual, w2);
  }

  /** Blank output matches exactly the blank expectations. */
  lemma CompareOutputBlank(actual: string, expected: string)
    requires IsBlank(actual)
    ensures CompareOutput(actual, expected) <==> IsBlank(expected)
  {
    BlankIffTrimEmpty(actual);
    BlankIffTrimEmpty(expected);
  }
}
