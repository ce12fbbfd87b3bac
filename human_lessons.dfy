/**
  * The built-in, hand-written lessons and the order a journey visits them in
  * (src/lessons/human_lessons.rs).
  */
module HumanLessons {
  import opened Wrappers
  import opened Languages
  import opened Difficulties
  import opened LessonTypes
  import opened Formatter

  datatype HumanLesson = HumanLesson(content: GeneratedContent, language: Language, difficulty: Difficulty, lessonType: LessonType)

  const RustHelloWorld: GeneratedContent := GeneratedContent(
    "Welcome to Rust! In this lesson, you'll learn how to write your first Rust program. The 'Hello, World!' program is a traditional first program that prints a message to the console.",
    [ "Rust programs start with a main function, which is the entry point of your program.",
      "The println! macro is used to print text to the console. The exclamation mark indicates it's a macro, not a regular function.",
      "String literals in Rust are enclosed in double quotes. The println! macro will output this text followed by a newline." ],
    [ CodeExample("fn main() {\n    println!(\"Hello, World!\");\n}",
                  "This is the simplest Rust program. It defines a main function and prints 'Hello, World!' to the console."),
      CodeExample("fn main() {\n    let message = \"Hello, Rust!\";\n    println!(\"{}\", message);\n}",
                  "This example shows how to store a string in a variable and then print it using println! with formatting.") ],
    "Key Rust syntax:\n- fn main() defines the entry point\n- println!() is a macro for printing\n- Semicolons end statements\n- Curly braces {} define code blocks",
    [ "Always start with fn main()",
      "Use println! for console output",
      "End statements with semicolons" ],
    [
      Exercise("Print Your Name",
               "Write a program that prints your name to the console. Use println! to output the text.",
               ["Start with fn main()", "Use println!(\"Your Name\") inside main", "Don't forget the semicolon at the end"],
               None, Some("Your Name"),
               [TestCase("", "Your Name")]),
      Exercise("Print Multiple Messages",
               "Create a program that prints three different messages, each on a new line.",
               ["You can use multiple println! statements", "Each println! will print on a new line automatically"],
               None, Some("First message\nSecond message\nThird message"),
               [TestCase("", "First message\nSecond message\nThird message")])
    ])

  const RustLessonTwo: GeneratedContent := GeneratedContent(
    "Welcome to Rust! TEST TEST console.",
    [ "Rust programs start with a main function, which is the entry point of your program.",
      "The println! macro is used to print text to the console. The exclamation mark indicates it's a macro, not a regular function.",
      "String literals in Rust are enclosed in double quotes. The println! macro will output this text followed by a newline." ],
    [ CodeExample("fn main() {\n    println!(\"Hello, World!\");\n}",
                  "This is the simplest Rust program. It defines a main function and prints 'Hello, World!' to the console."),
      CodeExample("fn main() {\n    let message = \"Hello, Rust!\";\n    println!(\"{}\", message);\n}",
                  "This example shows how to store a string in a variable and then print it using println! with formatting.") ],
    "Key Rust syntax:\n- fn main() defines the entry point\n- println!() is a macro for printing\n- Semicolons end statements\n- Curly braces {} define code blocks",
    [ "Always start with fn main()",
      "Use println! for console output",
      "End statements with semicolons" ],
    [
      Exercise("Print Your Name",
               "Write a program that prints your name to the console. Use println! to output the text.",
               ["Start with fn main()", "Use println!(\"Your Name\") inside main", "Don't forget the semicolon at the end"],
               None, Some("Your Name"),
               [TestCase("", "Your Name")]),
      Exercise("Print Multiple Messages",
               "Create a program that prints three different messages, each on a new line.",
               ["You can use multiple println! statements", "Each println! will print on a new line automatically"],
               None, Some("First message\nSecond message\nThird message"),
               [TestCase("", "First message\nSecond message\nThird message")])
    ])

  const JavaScriptHelloWorld: GeneratedContent := GeneratedContent(
    "Welcome to JavaScript! In this lesson, you'll learn how to write your first JavaScript program. JavaScript is a versatile language that runs in browsers and on servers with Node.js.",
    [ "JavaScript programs can be written directly without a main function (though Node.js scripts typically start executing from the top).",
      "The console.log() function is used to print text to the console in JavaScript.",
      "JavaScript statements end with semicolons, though they are often optional." ],
    [ CodeExample("console.log('Hello, World!');",
                  "This is the simplest JavaScript program. It uses console.log to print 'Hello, World!' to the console."),
      CodeExample("const message = 'Hello, JavaScript!';\nconsole.log(message);",
                  "This example shows how to store a string in a constant variable and then print it using console.log.") ],
    "Key JavaScript syntax:\n- console.log() prints to console\n- const declares a constant variable\n- Semicolons are optional but recommended\n- Strings can use single or double quotes",
    [ "Use console.log() for output",
      "const for constants, let for variables",
      "Strings can use 'single' or \"double\" quotes" ],
    [
      Exercise("Print Your Name",
               "Write a program that prints your name to the console using console.log.",
               ["Use console.log('Your Name')", "Don't forget the semicolon"],
               None, Some("Your Name"),
               [TestCase("", "Your Name")]),
      Exercise("Print Multiple Messages",
               "Create a program that prints three different messages, each on a new line.",
               ["You can use multiple console.log() statements", "Each console.log() will print on a new line automatically"],
               None, Some("First message\nSecond message\nThird message"),
               [TestCase("", "First message\nSecond message\nThird message")])
    ])

  const CppHelloWorld: GeneratedContent := GeneratedContent(
    "Welcome to C++! In this lesson, you'll learn how to write your first C++ program. C++ is a powerful systems programming language with a rich standard library.",
    [ "C++ programs need to include necessary headers. For input/output, we use <iostream>.",
      "The main() function is the entry point of every C++ program. It returns an int (0 for success).",
      "std::cout is used to output text to the console. The << operator is used to send data to cout.",
      "std::endl or '\\n' is used to add a newline after the output." ],
    [ CodeExample("#include <iostream>\n\nint main() {\n    std::cout << \"Hello, World!\" << std::endl;\n    return 0;\n}",
                  "This is the simplest C++ program. It includes iostream, defines main, and uses std::cout to print 'Hello, World!'."),
      CodeExample("#include <iostream>\n\nint main() {\n    std::string message = \"Hello, C++!\";\n    std::cout << message << std::endl;\n    return 0;\n}",
                  "This example shows how to store a string in a variable and then print it using std::cout.") ],
    "Key C++ syntax:\n- #include <iostream> for input/output\n- int main() is the entry point\n- std::cout << for output\n- return 0 indicates success\n- Semicolons end statements",
    [ "Always include necessary headers",
      "Use std::cout << for output",
      "Return 0 from main() on success" ],
    [
      Exercise("Print Your Name",
               "Write a program that prints your name to the console using std::cout.",
               ["Start with #include <iostream>", "Use int main() and return 0", "Use std::cout << \"Your Name\" << std::endl;"],
               None, Some("Your Name"),
               [TestCase("", "Your Name")]),
      Exercise("Print Multiple Messages",
               "Create a program that prints three different messages, each on a new line.",
               ["You can use multiple std::cout statements", "Use std::endl or '\\n' for newlines"],
               None, Some("First message\nSecond message\nThird message"),
               [TestCase("", "First message\nSecond message\nThird message")])
    ])

  /** `get_all_lessons`: two Rust lessons, then JavaScript, then C++, all short beginner lessons. */
  const AllLessons: seq<HumanLesson> := [
    HumanLesson(RustHelloWorld, Rust, Beginner, Short),
    HumanLesson(RustLessonTwo, Rust, Beginner, Short),
    HumanLesson(JavaScriptHelloWorld, JavaScript, Beginner, Short),
    HumanLesson(CppHelloWorld, Cpp, Beginner, Short)
  ]

  /** The indices of the lessons in `language`, in increasing order (the enumerate-and-filter step). */
  function Positions(lessons: seq<HumanLesson>, language: Language): (ps: seq<nat>)
    ensures forall k :: 0 <= k < |ps| ==> ps[k] < |lessons| && lessons[ps[k]].language == language
    ensures forall i, j :: 0 <= i < j < |ps| ==> ps[i] < ps[j]
    ensures forall i :: 0 <= i < |lessons| && lessons[i].language == language ==> i in ps
    decreases |lessons|
  {
    if lessons == [] then []
    else
      var n := |lessons| - 1;
      var prev := Positions(lessons[..n], language);
      assert forall i :: 0 <= i < n ==> lessons[..n][i] == lessons[i];
      if lessons[n].language == language then prev + [n] else prev
  }

  /** `iter().position`: where `x` first occurs in `xs`. */
  function IndexOf(xs: seq<nat>, x: nat): (r: Option<nat>)
    ensures r.Some? ==> r.value < |xs| && xs[r.value] == x && forall k :: 0 <= k < r.value ==> xs[k] != x
    ensures r.None? ==> x !in xs
  {
    if xs == [] then None
    else if xs[0] == x then Some(0)
    else match IndexOf(xs[1..], x)
      case Some(k) => Some(k + 1)
      case None => None
  }

  /**
    * `get_next_lesson` over a lesson table: `None` when the table or the language's share of it
    * is empty; otherwise the lesson after `lastIndex` among the language's lessons, wrapping to
    * the first, or the first when `lastIndex` is absent or not one of them.
    */
  function NextLessonIn(lessons: seq<HumanLesson>, lastIndex: Option<nat>, language: Language): (r: Option<(HumanLesson, nat)>)
    ensures r.Some? ==> r.value.1 < |lessons| && lessons[r.value.1].language == language && r.value.0 == lessons[r.value.1]
  {
    if lessons == [] then None
    else
      var own := Positions(lessons, language);
      if own == [] then None
      else
        var next :=
          match lastIndex
          case None => own[0]
          case Some(idx) =>
            match IndexOf(own, idx)
            case Some(pos) => if pos + 1 < |own| then own[pos + 1] else own[0]
            case None => own[0];
        Some((lessons[next], next))
  }

  /** `get_next_lesson` on the built-in table. */
  function GetNextLesson(lastIndex: Option<nat>, language: Language): Option<(HumanLesson, nat)> {
    NextLessonIn(AllLessons, lastIndex, language)
  }

  /** The lowest index of a lesson in `language`. */
  predicate IsFirst(lessons: seq<HumanLesson>, language: Language, i: nat) {
    i < |lessons| && lessons[i].language == language && forall j :: 0 <= j < i ==> lessons[j].language != language
  }

  /** The lowest index above `after` of a lesson in `language`. */
  predicate IsNextAfter(lessons: seq<HumanLesson>, language: Language, after: nat, i: nat) {
    after < i < |lessons| && lessons[i].language == language
    && forall j :: after < j < i ==> lessons[j].language != language
  }

  lemma PositionsStartAtFirst(lessons: seq<HumanLesson>, language: Language)
    requires Positions(lessons, language) != []
    ensures IsFirst(lessons, language, Positions(lessons, language)[0])
  {
    var ps := Positions(lessons, language);
    forall j | 0 <= j < ps[0]
      ensures lessons[j].language != language
    {
      if lessons[j].language == language {
        assert false;
      }
    }
  }

  /** There is no next lesson exactly when no lesson of the table is in that language. */
  lemma NextLessonNoneIff(lessons: seq<HumanLesson>, lastIndex: Option<nat>, language: Language)
    ensures NextLessonIn(lessons, lastIndex, language).None?
      <==> forall i :: 0 <= i < |lessons| ==> lessons[i].language != language
  {
    var own := Positions(lessons, language);
    if lessons != [] && own == [] {
      forall i | 0 <= i < |lessons|
        ensures lessons[i].language != language
      {
        if lessons[i].language == language {
          assert false;
        }
      }
    }
  }

  /** Without a previous lesson, or with one outside the language, the journey starts at the language's first lesson. */
  lemma NextLessonFromStart(lessons: seq<HumanLesson>, lastIndex: Option<nat>, language: Language)
    requires lastIndex.None? || lastIndex.value >= |lessons| || lessons[lastIndex.value].language != language
    ensures var r := NextLessonIn(lessons, lastIndex, language);
      r.Some? ==> IsFirst(lessons, language, r.value.1)
  {
    var own := Positions(lessons, language);
    if lessons != [] && own != [] {
      PositionsStartAtFirst(lessons, language);
      if lastIndex.Some? {
        assert lastIndex.value !in own;
      }
    }
  }

  /** No lesson of the language lies strictly between two neighbouring positions. */
  lemma PositionsGap(lessons: seq<HumanLesson>, language: Language, own: seq<nat>, pos: nat)
    requires own == Positions(lessons, language) && pos + 1 < |own|
    ensures forall j :: own[pos] < j < own[pos + 1] ==> lessons[j].language != language
  {
    forall j | own[pos] < j < own[pos + 1]
      ensures lessons[j].language != language
    {
      forall k | 0 <= k < |own|
        ensures own[k] != j
      {
        if k < pos {
          assert own[k] < own[pos];
        } else if k > pos + 1 {
          assert own[pos + 1] < own[k];
        }
      }
    }
  }

  /** No lesson of the language lies after the last position. */
  lemma PositionsTail(lessons: seq<HumanLesson>, language: Language, own: seq<nat>)
    requires own == Positions(lessons, language) && own != []
    ensures forall i :: own[|own| - 1] < i < |lessons| ==> lessons[i].language != language
  {
    forall i | own[|own| - 1] < i < |lessons|
      ensures lessons[i].language != language
    {
      forall k | 0 <= k < |own|
        ensures own[k] != i
      {
        if k < |own| - 1 {
          assert own[k] < own[|own| - 1];
        }
      }
    }
  }

  /**
    * After a lesson of the language, the next one is the following lesson of that language in
    * table order; after its last lesson the order wraps round to its first.
    */
  lemma NextLessonAfter(lessons: seq<HumanLesson>, idx: nat, language: Language)
    requires idx < |lessons| && lessons[idx].language == language
    ensures var r := NextLessonIn(lessons, Some(idx), language);
      && r.Some?
      && ((exists i :: IsNextAfter(lessons, language, idx, i)) ==> IsNextAfter(lessons, language, idx, r.value.1))
      && ((forall i :: idx < i < |lessons| ==> lessons[i].language != language) ==> IsFirst(lessons, language, r.value.1))
  {
    var own := Positions(lessons, language);
    assert idx in own;
    var pos := IndexOf(own, idx).value;
    PositionsStartAtFirst(lessons, language);
    if pos + 1 < |own| {
      PositionsGap(lessons, language, own, pos);
      assert IsNextAfter(lessons, language, idx, own[pos + 1]);
    } else {
      PositionsTail(lessons, language, own);
    }
  }

  /**
    * The built-in table: every lesson has exactly two code examples, and each exercise has one
    * test case whose expected output is the exercise's example output.
    */
  lemma BuiltInLessonsShape()
    ensures |AllLessons| == 4
    ensures forall i :: 0 <= i < |AllLessons| ==> |AllLessons[i].content.codeExamples| == 2
    ensures forall i, k :: 0 <= i < |AllLessons| && 0 <= k < |AllLessons[i].content.exercises| ==>
      |AllLessons[i].content.exercises[k].testCases| == 1
      && AllLessons[i].content.exercises[k].exampleOutput == Some(AllLessons[i].content.exercises[k].testCases[0].output)
  {
    forall i | 0 <= i < |AllLessons|
      ensures |AllLessons[i].content.exercises| == 2
    {
    }
  }

  /** The language order of the built-in table: Rust, Rust, JavaScript, C++. */
  predicate BuiltInOrder(lessons: seq<HumanLesson>) {
    && |lessons| == 4
    && lessons[0].language == Rust && lessons[1].language == Rust
    && lessons[2].language == JavaScript && lessons[3].language == Cpp
  }

  /** The languages of the built-in table, in order. */
  lemma BuiltInLanguages()
    ensures BuiltInOrder(AllLessons)
  {
  }

  /** On a table in the built-in order a Rust journey alternates between lessons 0 and 1. */
  lemma RoundRobinOn(lessons: seq<HumanLesson>)
    requires BuiltInOrder(lessons)
    ensures NextLessonIn(lessons, None, Rust).Some? && NextLessonIn(lessons, None, Rust).value.1 == 0
    ensures NextLessonIn(lessons, Some(0), Rust).Some? && NextLessonIn(lessons, Some(0), Rust).value.1 == 1
    ensures NextLessonIn(lessons, Some(1), Rust).Some? && NextLessonIn(lessons, Some(1), Rust).value.1 == 0
  {
    NextLessonNoneIff(lessons, None, Rust);
    NextLessonFromStart(lessons, None, Rust);
    NextLessonAfter(lessons, 0, Rust);
    assert IsNextAfter(lessons, Rust, 0, 1);
    NextLessonAfter(lessons, 1, Rust);
  }

  /** On a table in the built-in order, JavaScript and C++ journeys always get their one lesson. */
  lemma SingleLessonsOn(lessons: seq<HumanLesson>, last: Option<nat>)
    requires BuiltInOrder(lessons)
    ensures NextLessonIn(lessons, last, JavaScript).Some? && NextLessonIn(lessons, last, JavaScript).value.1 == 2
    ensures NextLessonIn(lessons, last, Cpp).Some? && NextLessonIn(lessons, last, Cpp).value.1 == 3
  {
    NextLessonNoneIff(lessons, last, JavaScript);
    NextLessonNoneIff(lessons, last, Cpp);
  }

  /** On the built-in table a Rust journey alternates between lessons 0 and 1. */
  lemma RustRoundRobin()
    ensures GetNextLesson(None, Rust).Some? && GetNextLesson(None, Rust).value.1 == 0
    ensures GetNextLesson(Some(0), Rust).Some? && GetNextLesson(Some(0), Rust).value.1 == 1
    ensures GetNextLesson(Some(1), Rust).Some? && GetNextLesson(Some(1), Rust).value.1 == 0
  {
    BuiltInLanguages();
    RoundRobinOn(AllLessons);
  }

  /** JavaScript and C++ have one built-in lesson each, which every journey step repeats. */
  lemma SingleLessonLanguages(last: Option<nat>)
    ensures GetNextLesson(last, JavaScript).Some? && GetNextLesson(last, JavaScript).value.1 == 2
    ensures GetNextLesson(last, Cpp).Some? && GetNextLesson(last, Cpp).value.1 == 3
  {
    BuiltInLanguages();
    SingleLessonsOn(AllLessons, last);
  }
}
