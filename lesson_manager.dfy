/**
  * The decisions of the lesson screen (src/lessons/lesson_manager.rs): wrapping prose to the
  * terminal, making sure every exercise can be shown and checked, reading what an exercise
  * expects, and running a solution against the test cases.
  */
module LessonManager {
  import opened Wrappers
  import opened Text
  import opened Languages
  import opened Formatter
  import opened FileManager
  import opened Executor
  import opened Fallback

  // Wrapping text.

  /** One output line: the indent, then the group's words separated by single spaces. */
  function Line(group: seq<string>, indent: nat): string {
    Repeat(' ', indent) + Join(group, " ")
  }

  /**
    * The greedy grouping `wrap_text` performs: each word joins the current line when the line
    * stays within `width`, otherwise it starts a new line.
    */
  function WrapGroups(words: seq<string>, width: nat, indent: nat): (gs: seq<seq<string>>)
    ensures gs == [] <==> words == []
    decreases |words|
  {
    if words == [] then []
    else
      var gs := WrapGroups(words[..|words| - 1], width, indent);
      var w := words[|words| - 1];
      if gs == [] then [[w]]
      else if |Line(gs[|gs| - 1], indent)| + |w| + 1 <= width then gs[..|gs| - 1] + [gs[|gs| - 1] + [w]]
      else gs + [[w]]
  }

  function Lines(gs: seq<seq<string>>, indent: nat): (lines: seq<string>)
    ensures |lines| == |gs| && forall k :: 0 <= k < |gs| ==> lines[k] == Line(gs[k], indent)
  {
    seq(|gs|, k requires 0 <= k < |gs| => Line(gs[k], indent))
  }

  /** What `wrap_text` returns: the lines joined by line feeds, without a trailing one. */
  function Wrapped(text: string, width: nat, indent: nat): string {
    Join(Lines(WrapGroups(Words(text), width, indent), indent), "\n")
  }

  /** Concatenation of a sequence of sequences. */
  function Flatten<T>(xss: seq<seq<T>>): seq<T> {
    if xss == [] then [] else Flatten(xss[..|xss| - 1]) + xss[|xss| - 1]
  }

  /** Each line ends with a line feed. */
  function Terminated(lines: seq<string>): string {
    if lines == [] then "" else Terminated(lines[..|lines| - 1]) + lines[|lines| - 1] + "\n"
  }

  /** The line being filled: the last group's line, or nothing before the first word. */
  function Current(gs: seq<seq<string>>, indent: nat): string {
    if gs == [] then "" else Line(gs[|gs| - 1], indent)
  }

  /** The text of the lines already finished, each ended by a line feed. */
  function Finished(gs: seq<seq<string>>, indent: nat): string {
    if gs == [] then "" else Terminated(Lines(gs[..|gs| - 1], indent))
  }

  lemma {:induction false} JoinSnoc(xs: seq<string>, x: string, sep: string)
    requires xs != []
    ensures Join(xs + [x], sep) == Join(xs, sep) + sep + x
    decreases |xs|
  {
    if |xs| == 1 {
      assert xs + [x] == [xs[0], x];
    } else {
      assert (xs + [x])[1..] == xs[1..] + [x];
      JoinSnoc(xs[1..], x, sep);
    }
  }

  lemma {:induction false} JoinIsTerminatedPlusLast(lines: seq<string>)
    requires lines != []
    ensures Join(lines, "\n") == Terminated(lines[..|lines| - 1]) + lines[|lines| - 1]
    decreases |lines|
  {
    var n := |lines|;
    if n > 1 {
      var init := lines[..n - 1];
      assert init + [lines[n - 1]] == lines;
      JoinSnoc(init, lines[n - 1], "\n");
      JoinIsTerminatedPlusLast(init);
      assert init[..n - 2] == lines[..n - 2];
    }
  }

  /** The words come out whole and in their original order. */
  lemma {:induction false} WrapKeepsWords(words: seq<string>, width: nat, indent: nat)
    ensures Flatten(WrapGroups(words, width, indent)) == words
    decreases |words|
  {
    if words != [] {
      var init := words[..|words| - 1];
      var w := words[|words| - 1];
      var gs := WrapGroups(init, width, indent);
      WrapKeepsWords(init, width, indent);
      if gs != [] && |Line(gs[|gs| - 1], indent)| + |w| + 1 <= width {
        var r := gs[..|gs| - 1] + [gs[|gs| - 1] + [w]];
        assert r[..|r| - 1] == gs[..|gs| - 1];
        assert Flatten(gs) == Flatten(gs[..|gs| - 1]) + gs[|gs| - 1];
      } else if gs != [] {
        var r := gs + [[w]];
        assert r[..|r| - 1] == gs;
      }
      assert init + [w] == words;
    }
  }

  /** Every line holds at least one word. */
  lemma {:induction false} WrapGroupsNonEmpty(words: seq<string>, width: nat, indent: nat)
    ensures forall k :: 0 <= k < |WrapGroups(words, width, indent)| ==> WrapGroups(words, width, indent)[k] != []
    decreases |words|
  {
    if words != [] {
      WrapGroupsNonEmpty(words[..|words| - 1], width, indent);
    }
  }

  /** A line that holds two or more words is never wider than `width`, indent included. */
  lemma {:induction false} WrapLinesFit(words: seq<string>, width: nat, indent: nat)
    ensures forall k :: 0 <= k < |WrapGroups(words, width, indent)| && |WrapGroups(words, width, indent)[k]| >= 2 ==>
      |Line(WrapGroups(words, width, indent)[k], indent)| <= width
    decreases |words|
  {
    if words != [] {
      var init := words[..|words| - 1];
      var w := words[|words| - 1];
      var gs := WrapGroups(init, width, indent);
      WrapLinesFit(init, width, indent);
      if gs != [] && |Line(gs[|gs| - 1], indent)| + |w| + 1 <= width {
        var g := gs[|gs| - 1];
        JoinSnoc(g, w, " ");
        assert |Line(g + [w], indent)| == |Line(g, indent)| + 1 + |w|;
      }
    }
  }

  /** Whitespace-only text wraps to nothing. */
  lemma WrapBlank(text: string, width: nat, indent: nat)
    requires IsBlank(text)
    ensures Wrapped(text, width, indent) == ""
  {
    WordsOfBlank(text);
  }

  /** After a non-empty word the line being filled is not empty. */
  lemma CurrentAfterWord(words: seq<string>, width: nat, indent: nat)
    requires words != [] && words[|words| - 1] != []
    ensures Current(WrapGroups(words, width, indent), indent) != ""
  {
    var gs := WrapGroups(words, width, indent);
    var w := words[|words| - 1];
    var prev := WrapGroups(words[..|words| - 1], width, indent);
    if prev != [] && |Line(prev[|prev| - 1], indent)| + |w| + 1 <= width {
      JoinSnoc(prev[|prev| - 1], w, " ");
      assert gs[|gs| - 1] == prev[|prev| - 1] + [w];
    } else {
      assert gs[|gs| - 1] == [w];
    }
  }

  /** The grouping after one more word, in terms of the grouping before it. */
  lemma WrapGroupsSnoc(words: seq<string>, w: string, width: nat, indent: nat)
    ensures var gs := WrapGroups(words, width, indent);
      WrapGroups(words + [w], width, indent)
      == if gs == [] then [[w]]
         else if |Line(gs[|gs| - 1], indent)| + |w| + 1 <= width then gs[..|gs| - 1] + [gs[|gs| - 1] + [w]]
         else gs + [[w]]
  {
    assert (words + [w])[..|words|] == words;
  }

  /** The first word starts the first line and finishes nothing. */
  lemma StartGroup(w: string, indent: nat)
    ensures Current([[w]], indent) == Repeat(' ', indent) + w
    ensures Finished([[w]], indent) == ""
  {
    assert Join([w], " ") == w;
  }

  /** Adding a word to the last group extends the line being filled and finishes nothing. */
  lemma JoinGroup(gs: seq<seq<string>>, w: string, indent: nat)
    requires gs != [] && gs[|gs| - 1] != []
    ensures Current(gs[..|gs| - 1] + [gs[|gs| - 1] + [w]], indent) == Current(gs, indent) + " " + w
    ensures Finished(gs[..|gs| - 1] + [gs[|gs| - 1] + [w]], indent) == Finished(gs, indent)
  {
    var gs2 := gs[..|gs| - 1] + [gs[|gs| - 1] + [w]];
    JoinSnoc(gs[|gs| - 1], w, " ");
    assert gs2[..|gs2| - 1] == gs[..|gs| - 1];
  }

  /** Starting a new group finishes the line being filled. */
  lemma BreakGroup(gs: seq<seq<string>>, w: string, indent: nat)
    requires gs != []
    ensures Current(gs + [[w]], indent) == Repeat(' ', indent) + w
    ensures Finished(gs + [[w]], indent) == Finished(gs, indent) + Current(gs, indent) + "\n"
  {
    var gs2 := gs + [[w]];
    assert Join([w], " ") == w;
    assert gs2[..|gs2| - 1] == gs;
    assert Lines(gs, indent)[..|gs| - 1] == Lines(gs[..|gs| - 1], indent);
  }

  /** How one more word changes the line being filled and the finished text. */
  lemma WrapStep(words: seq<string>, w: string, width: nat, indent: nat)
    requires (words != [] ==> words[|words| - 1] != [])
    ensures var gs := WrapGroups(words, width, indent);
      var gs2 := WrapGroups(words + [w], width, indent);
      var cur := Current(gs, indent);
      && (cur == "" ==> Current(gs2, indent) == Repeat(' ', indent) + w && Finished(gs2, indent) == Finished(gs, indent))
      && (cur != "" && |cur| + |w| + 1 <= width ==>
            Current(gs2, indent) == cur + " " + w && Finished(gs2, indent) == Finished(gs, indent))
      && (cur != "" && |cur| + |w| + 1 > width ==>
            Current(gs2, indent) == Repeat(' ', indent) + w && Finished(gs2, indent) == Finished(gs, indent) + cur + "\n")
  {
    var gs := WrapGroups(words, width, indent);
    WrapGroupsSnoc(words, w, width, indent);
    if gs == [] {
      StartGroup(w, indent);
    } else {
      CurrentAfterWord(words, width, indent);
      if |Current(gs, indent)| + |w| + 1 <= width {
        WrapGroupsNonEmpty(words, width, indent);
        JoinGroup(gs, w, indent);
      } else {
        BreakGroup(gs, w, indent);
      }
    }
  }

  /** The finished text plus the line being filled is the wrapped text. */
  lemma WrapDone(words: seq<string>, width: nat, indent: nat)
    requires (words != [] ==> words[|words| - 1] != [])
    ensures var gs := WrapGroups(words, width, indent);
      Join(Lines(gs, indent), "\n") == Finished(gs, indent) + Current(gs, indent)
  {
    var gs := WrapGroups(words, width, indent);
    if gs != [] {
      JoinIsTerminatedPlusLast(Lines(gs, indent));
      assert Lines(gs, indent)[..|gs| - 1] == Lines(gs[..|gs| - 1], indent);
    }
  }

  /** `wrap_text`, word by word, with the current line and the finished text. */
  method WrapText(text: string, width: nat, indent: nat) returns (result: string)
    ensures result == Wrapped(text, width, indent)
  {
    var indentStr := Repeat(' ', indent);
    result := "";
    var currentLine := "";
    var words := Words(text);
    WordsAreWords(text);
    for i := 0 to |words|
      invariant currentLine == Current(WrapGroups(words[..i], width, indent), indent)
      invariant result == Finished(WrapGroups(words[..i], width, indent), indent)
    {
      var word := words[i];
      assert words[..i + 1] == words[..i] + [word];
      WrapStep(words[..i], word, width, indent);
      if currentLine == "" {
        currentLine := indentStr + word;
      } else if |currentLine| + |word| + 1 <= width {
        currentLine := currentLine + " " + word;
      } else {
        result := result + currentLine + "\n";
        currentLine := indentStr + word;
      }
    }
    assert words[..|words|] == words;
    WrapDone(words, width, indent);
    if currentLine != "" {
      result := result + currentLine;
    }
  }

  // Making every exercise showable.

  /** The exercise the lesson screen adds when the content has none; it has no test cases. */
  function PlaceholderExercise(topic: string): (e: Exercise)
    ensures e.title == "Practice: " + topic && e.testCases == []
  {
    Exercise("Practice: " + topic,
             "Apply what you learned about " + topic + " by writing a simple program that demonstrates the concept.",
             ["Review the code examples above", "Start with a simple implementation"],
             Some(""), Some("(Your code should demonstrate the concept)"), [])
  }

  /** A missing or blank value. */
  predicate Unset(v: Option<string>) {
    v.None? || Trim(v.value) == []
  }

  /**
    * The backfill of one exercise: a missing or blank example output takes the first test
    * case's output; a missing or blank example input takes the first test case's input when
    * that is not blank, and the empty text otherwise.
    */
  function Backfilled(e: Exercise): Exercise {
    var e1 := if Unset(e.exampleOutput) && e.testCases != [] then e.(exampleOutput := Some(e.testCases[0].output)) else e;
    if Unset(e1.exampleInput) then
      e1.(exampleInput := Some(if e1.testCases != [] && Trim(e1.testCases[0].input) != [] then e1.testCases[0].input else ""))
    else e1
  }

  /** The exercises as the lesson uses them: the placeholder when there are none, each backfilled. */
  function Prepared(topic: string, exercises: seq<Exercise>): (r: seq<Exercise>)
    ensures |r| == if exercises == [] then 1 else |exercises|
  {
    var base := if exercises == [] then [PlaceholderExercise(topic)] else exercises;
    seq(|base|, k requires 0 <= k < |base| => Backfilled(base[k]))
  }

  /**
    * Backfill only fills examples: title, description, hints and test cases stay; afterwards
    * the example input is always present; set examples are never overwritten; and the
    * values filled in come from the first test case.
    */
  lemma BackfilledSpec(e: Exercise)
    ensures var b := Backfilled(e);
      && b.title == e.title && b.description == e.description && b.hints == e.hints && b.testCases == e.testCases
      && b.exampleInput.Some?
      && (!Unset(e.exampleInput) ==> b.exampleInput == e.exampleInput)
      && (Unset(e.exampleInput) ==>
            b.exampleInput == Some(if e.testCases != [] && Trim(e.testCases[0].input) != [] then e.testCases[0].input else ""))
      && (!Unset(e.exampleOutput) ==> b.exampleOutput == e.exampleOutput)
      && (Unset(e.exampleOutput) && e.testCases != [] ==> b.exampleOutput == Some(e.testCases[0].output))
      && (Unset(e.exampleOutput) && e.testCases == [] ==> b.exampleOutput == e.exampleOutput)
  {
  }

  /** Backfilling twice is backfilling once. */
  lemma BackfillIdempotent(e: Exercise)
    ensures Backfilled(Backfilled(e)) == Backfilled(e)
  {
  }

  /**
    * Without exercises the lesson gets exactly one placeholder, titled after the topic and
    * without test cases; otherwise it keeps every exercise, in order, each backfilled.
    */
  lemma PreparedSpec(topic: string, exercises: seq<Exercise>)
    ensures exercises == [] ==> Prepared(topic, exercises) == [Backfilled(PlaceholderExercise(topic))]
    ensures exercises != [] ==> forall k :: 0 <= k < |exercises| ==> Prepared(topic, exercises)[k] == Backfilled(exercises[k])
    ensures forall k :: 0 <= k < |Prepared(topic, exercises)| ==> Prepared(topic, exercises)[k].exampleInput.Some?
  {
  }

  /** The placeholder step and the backfill loop, updating the exercises in place. */
  method PrepareExercises(topic: string, exercises0: seq<Exercise>) returns (exercises: seq<Exercise>)
    ensures exercises == Prepared(topic, exercises0)
  {
    exercises := exercises0;
    if exercises == [] {
      exercises := exercises + [PlaceholderExercise(topic)];
    }
    ghost var base := exercises;
    for i := 0 to |exercises|
      invariant |exercises| == |base|
      invariant forall k :: 0 <= k < i ==> exercises[k] == Backfilled(base[k])
      invariant forall k :: i <= k < |base| ==> exercises[k] == base[k]
    {
      var exercise := exercises[i];
      if exercise.exampleOutput.None? || Trim(exercise.exampleOutput.value) == [] {
        if exercise.testCases != [] {
          exercise := exercise.(exampleOutput := Some(exercise.testCases[0].output));
        }
      }
      if exercise.exampleInput.None? || Trim(exercise.exampleInput.value) == [] {
        if exercise.testCases != [] {
          if Trim(exercise.testCases[0].input) != [] {
            exercise := exercise.(exampleInput := Some(exercise.testCases[0].input));
          } else {
            exercise := exercise.(exampleInput := Some(""));
          }
        } else {
          exercise := exercise.(exampleInput := Some(""));
        }
      }
      exercises := exercises[i := exercise];
    }
  }

  // What an exercise expects.

  /** Some test case has an input that is not blank. */
  predicate SomeInputSet(cases: seq<TestCase>) {
    exists k :: 0 <= k < |cases| && Trim(cases[k].input) != []
  }

  predicate SomeOutputSet(cases: seq<TestCase>) {
    exists k :: 0 <= k < |cases| && Trim(cases[k].output) != []
  }

  /** `expects_input`: a test case with a non-blank input, or a non-blank example input. */
  predicate ExpectsInput(e: Exercise) {
    (e.testCases != [] && SomeInputSet(e.testCases)) || (e.exampleInput.Some? && Trim(e.exampleInput.value) != [])
  }

  /** `expects_output`: a test case with a non-blank output, or a non-blank example output. */
  predicate ExpectsOutput(e: Exercise) {
    (e.testCases != [] && SomeOutputSet(e.testCases)) || (e.exampleOutput.Some? && Trim(e.exampleOutput.value) != [])
  }

  /** The trimmed non-blank inputs of the test cases, as a set. */
  function TrimmedInputs(cases: seq<TestCase>): set<string> {
    set k | 0 <= k < |cases| && Trim(cases[k].input) != [] :: Trim(cases[k].input)
  }

  /** `has_different_inputs`: more than one distinct trimmed non-blank input. */
  predicate HasDifferentInputs(e: Exercise) {
    if e.testCases != [] then |TrimmedInputs(e.testCases)| > 1 else false
  }

  /** Different inputs are only possible when the exercise expects input. */
  lemma DifferentInputsExpectInput(e: Exercise)
    requires HasDifferentInputs(e)
    ensures ExpectsInput(e)
  {
    var x :| x in TrimmedInputs(e.testCases);
  }

  /**
    * Backfill never changes whether an exercise expects output: an example output it fills in
    * is the first test case's output, which already counts.
    */
  lemma BackfillKeepsExpectsOutput(e: Exercise)
    ensures ExpectsOutput(Backfilled(e)) <==> ExpectsOutput(e)
  {
    if e.testCases != [] && Trim(e.testCases[0].output) != [] {
      assert SomeOutputSet(e.testCases);
    }
  }

  /** A backfilled exercise whose test cases give it input expects input. */
  lemma BackfilledKeepsExpectation(e: Exercise)
    ensures ExpectsInput(e) ==> ExpectsInput(Backfilled(e))
    ensures HasDifferentInputs(Backfilled(e)) == HasDifferentInputs(e)
  {
  }

  /**
    * For test cases made by the generator's fallback, the lesson screen sees different inputs
    * exactly when the exercise description asks for input.
    */
  lemma GeneratedCasesDifferIffAsked(l: Language, e: Exercise)
    requires e.exampleOutput.Some? && e.testCases == GenerateTestCases(l, e.description, e.exampleOutput.value)
    ensures HasDifferentInputs(e) <==> AsksForInput(e.description)
  {
    var cases := e.testCases;
    if AsksForInput(e.description) {
      TrimOfWord("5");
      TrimOfWord("10");
      TrimOfWord("42");
      assert Trim(cases[0].input) in TrimmedInputs(cases);
      assert Trim(cases[1].input) in TrimmedInputs(cases);
      assert {"5", "10"} <= TrimmedInputs(cases);
      assert |{"5", "10"}| == 2;
      SubsetCardinality({"5", "10"}, TrimmedInputs(cases));
    } else {
      assert Trim("") == [];
      assert TrimmedInputs(cases) == {};
    }
  }

  lemma TrimOfWord(w: string)
    requires IsWord(w)
    ensures Trim(w) == w
  {
  }

  lemma SubsetCardinality<T>(a: set<T>, b: set<T>)
    requires a <= b
    ensures |a| <= |b|
  {
    assert b == a + (b - a);
  }

  // Running a solution against the test cases.

  /** The outcome of checking a solution: whether everything passed, and the execution errors in order. */
  datatype TestRun = TestRun(allPassed: bool, errors: seq<string>)

  /** The outcome over the first test cases, one execution each, in order, never stopping early. */
  function RunCases(l: Language, file: Path, cases: seq<TestCase>, js: Runner, cpp: Runner, rust: Runner): (t: TestRun)
    ensures |t.errors| <= |cases|
    decreases |cases|
  {
    if cases == [] then TestRun(true, [])
    else
      var prev := RunCases(l, file, cases[..|cases| - 1], js, cpp, rust);
      var tc := cases[|cases| - 1];
      match Execute(l, file, Some(tc.input), js, cpp, rust)
      case Ok(result) => TestRun(prev.allPassed && CompareOutput(result.output, tc.output), prev.errors)
      case Err(e) => TestRun(false, prev.errors + [e])
  }

  /** The whole check: without test cases, one execution without input; otherwise every case. */
  function TestSession(l: Language, file: Path, cases: seq<TestCase>, js: Runner, cpp: Runner, rust: Runner): TestRun {
    if cases == [] then
      match Execute(l, file, None, js, cpp, rust)
      case Ok(_) => TestRun(true, [])
      case Err(e) => TestRun(false, [e])
    else RunCases(l, file, cases, js, cpp, rust)
  }

  /** A case passes when its execution succeeds and the output matches, trimmed. */
  predicate CasePasses(l: Language, file: Path, tc: TestCase, js: Runner, cpp: Runner, rust: Runner) {
    var r := Execute(l, file, Some(tc.input), js, cpp, rust);
    r.Ok? && CompareOutput(r.value.output, tc.output)
  }

  /**
    * Everything passes exactly when every case passes, and no error is recorded exactly when
    * every execution succeeds.
    */
  lemma {:induction false} RunCasesSpec(l: Language, file: Path, cases: seq<TestCase>, js: Runner, cpp: Runner, rust: Runner)
    ensures RunCases(l, file, cases, js, cpp, rust).allPassed
      <==> forall k :: 0 <= k < |cases| ==> CasePasses(l, file, cases[k], js, cpp, rust)
    ensures RunCases(l, file, cases, js, cpp, rust).errors == []
      <==> forall k :: 0 <= k < |cases| ==> Execute(l, file, Some(cases[k].input), js, cpp, rust).Ok?
    decreases |cases|
  {
    if cases != [] {
      var n := |cases|;
      var init := cases[..n - 1];
      RunCasesSpec(l, file, init, js, cpp, rust);
      assert forall k :: 0 <= k < n - 1 ==> init[k] == cases[k];
    }
  }

  /** Without test cases the attempt passes exactly when the single execution succeeds. */
  lemma SessionWithoutCases(l: Language, file: Path, js: Runner, cpp: Runner, rust: Runner)
    ensures TestSession(l, file, [], js, cpp, rust).allPassed <==> Execute(l, file, None, js, cpp, rust).Ok?
    ensures TestSession(l, file, [], js, cpp, rust).allPassed ==> TestSession(l, file, [], js, cpp, rust).errors == []
  {
  }

  /**
    * The test loop: each case executed once, in order, with its input, without stopping at a
    * failure. `fed` records the stdin given to each execution.
    */
  method RunTests(l: Language, file: Path, cases: seq<TestCase>, js: Runner, cpp: Runner, rust: Runner)
    returns (allPassed: bool, errors: seq<string>, ghost fed: seq<Option<string>>)
    ensures TestRun(allPassed, errors) == TestSession(l, file, cases, js, cpp, rust)
    ensures cases == [] ==> fed == [None]
    ensures cases != [] ==> |fed| == |cases| && forall k :: 0 <= k < |cases| ==> fed[k] == Some(cases[k].input)
  {
    allPassed := true;
    errors := [];
    fed := [];
    if cases == [] {
      var r := Execute(l, file, None, js, cpp, rust);
      fed := fed + [None];
      match r
      case Ok(_) =>
        allPassed := true;
      case Err(e) =>
        errors := errors + [e];
        allPassed := false;
    } else {
      for i := 0 to |cases|
        invariant TestRun(allPassed, errors) == RunCases(l, file, cases[..i], js, cpp, rust)
        invariant |fed| == i && forall k :: 0 <= k < i ==> fed[k] == Some(cases[k].input)
      {
        var tc := cases[i];
        var r := Execute(l, file, Some(tc.input), js, cpp, rust);
        fed := fed + [Some(tc.input)];
        assert cases[..i + 1][..i] == cases[..i];
        match r
        case Ok(result) =>
          var passed := CompareOutput(result.output, tc.output);
          if !passed {
            allPassed := false;
          }
        case Err(e) =>
          errors := errors + [e];
          allPassed := false;
      }
      assert cases[..|cases|] == cases;
    }
  }
}
