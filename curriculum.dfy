/** The fixed per-language curricula of stages and topics (src/config/curriculum.rs). */
module Curriculum {
  import opened Wrappers
  import opened Languages
  import opened Difficulties
  import opened LessonTypes

  datatype Stage = Stage(
    name: string,
    description: string,
    difficulty: Difficulty,
    topics: seq<string>,
    lessonType: LessonType)

  datatype Curriculum = Curriculum(language: Language, stages: seq<Stage>)

  /** `Curriculum::get_for_language`: the built-in curriculum of a language is about that language. */
  function GetForLanguage(l: Language): (c: Curriculum)
    ensures c.language == l
  {
    match l
    case JavaScript => JavaScriptCurriculum()
    case Cpp => CppCurriculum()
    case Rust => RustCurriculum()
  }

  function JavaScriptCurriculum(): Curriculum {
    Curriculum(JavaScript, [
      Stage("Getting Started", "Learn the basics of JavaScript", Beginner,
        ["variables", "data types", "operators", "console output"], Short),
      Stage("Control Flow", "Learn conditionals and loops", Beginner,
        ["if statements", "for loops", "while loops", "switch statements"], Medium),
      Stage("Functions", "Learn to write reusable code", Beginner,
        ["function basics", "parameters and arguments", "return values", "arrow functions"], Medium),
      Stage("Arrays and Objects", "Work with data structures", Intermediate,
        ["arrays", "array methods", "objects", "object methods"], Medium),
      Stage("Advanced Concepts", "Master advanced JavaScript", Intermediate,
        ["closures", "promises", "async/await", "classes"], Long),
      Stage("Expert Level", "Become a JavaScript expert", Advanced,
        ["design patterns", "algorithm optimization", "advanced data structures", "performance optimization"], Long)
    ])
  }

  function CppCurriculum(): Curriculum {
    Curriculum(Cpp, [
      Stage("Getting Started", "Learn the basics of C++", Beginner,
        ["variables and types", "input and output", "operators", "basic syntax"], Short),
      Stage("Control Structures", "Learn conditionals and loops", Beginner,
        ["if-else statements", "for loops", "while loops", "switch statements"], Medium),
      Stage("Functions", "Learn to write functions", Beginner,
        ["function definition", "parameters", "return types", "function overloading"], Medium),
      Stage("Arrays and Pointers", "Work with arrays and memory", Intermediate,
        ["arrays", "pointers", "references", "dynamic memory"], Long),
      Stage("Object-Oriented Programming", "Learn OOP in C++", Intermediate,
        ["classes", "inheritance", "polymorphism", "templates"], Long),
      Stage("Advanced C++", "Master advanced C++ features", Advanced,
        ["STL containers", "smart pointers", "move semantics", "concurrency"], Long)
    ])
  }

  function RustCurriculum(): Curriculum {
    Curriculum(Rust, [
      Stage("Getting Started", "Learn the basics of Rust", Beginner,
        ["variables and mutability", "data types", "ownership basics", "functions"], Short),
      Stage("Control Flow", "Learn conditionals and loops", Beginner,
        ["if expressions", "loops", "match expressions", "pattern matching"], Medium),
      Stage("Ownership and Borrowing", "Master Rust's unique features", Intermediate,
        ["ownership", "borrowing", "references", "lifetimes basics"], Long),
      Stage("Structs and Enums", "Work with custom types", Intermediate,
        ["structs", "enums", "methods", "associated functions"], Medium),
      Stage("Collections", "Work with data structures", Intermediate,
        ["vectors", "strings", "hash maps", "iterators"], Medium),
      Stage("Advanced Rust", "Master advanced Rust", Advanced,
        ["error handling", "generics", "traits", "concurrency"], Long)
    ])
  }

  /** `Curriculum::total_stages`. */
  function TotalStages(c: Curriculum): (n: nat)
    ensures n == |c.stages|
  {
    |c.stages|
  }

  /** `Curriculum::get_stage`: the stage at that index, or `None` past the end. */
  function GetStage(c: Curriculum, i: nat): (r: Option<Stage>)
    ensures r.Some? <==> i < TotalStages(c)
    ensures r.Some? ==> r.value == c.stages[i]
  {
    if i < |c.stages| then Some(c.stages[i]) else None
  }

  /**
    * Every built-in curriculum has six stages of four topics each; its stages never get
    * easier, it starts at Beginner and ends at Advanced.
    */
  lemma BuiltInCurriculumShape(l: Language)
    ensures var c := GetForLanguage(l);
      && TotalStages(c) == 6
      && (forall i :: 0 <= i < 6 ==> |c.stages[i].topics| == 4)
      && (forall i, j :: 0 <= i <= j < 6 ==> Level(c.stages[i].difficulty) <= Level(c.stages[j].difficulty))
      && c.stages[0].difficulty == Beginner
      && c.stages[5].difficulty == Advanced
  {
  }
}
