/** Lesson lengths and the amount of material each asks for (src/config/lesson_types.rs). */
module LessonTypes {

  datatype LessonType = Short | Medium | Long

  /** Position in the declaration order Short, Medium, Long. */
  function Size(t: LessonType): nat {
    match t
    case Short => 0
    case Medium => 1
    case Long => 2
  }

  /** `LessonType::display_name`. */
  function DisplayName(t: LessonType): string {
    match t
    case Short => "Short"
    case Medium => "Medium"
    case Long => "Long"
  }

  /** The `Display` implementation: writes the display name. */
  function Display(t: LessonType): string {
    DisplayName(t)
  }

  /** `LessonType::concept_count`. */
  function ConceptCount(t: LessonType): (n: nat)
    ensures n == Size(t) + 1
  {
    match t
    case Short => 1
    case Medium => 2
    case Long => 3
  }

  /** `LessonType::exercise_count`. */
  function ExerciseCount(t: LessonType): (n: nat)
    ensures n >= 1 && n == 2 * Size(t) + 1
  {
    match t
    case Short => 1
    case Medium => 3
    case Long => 5
  }

  /** Longer lessons ask for strictly more concepts and strictly more exercises. */
  lemma CountsIncrease(a: LessonType, b: LessonType)
    requires Size(a) < Size(b)
    ensures ConceptCount(a) < ConceptCount(b)
    ensures ExerciseCount(a) < ExerciseCount(b)
  {
  }

  /** Display names are pairwise distinct, and `Display` writes exactly the display name. */
  lemma NamesIdentifyLessonType(a: LessonType, b: LessonType)
    ensures DisplayName(a) == DisplayName(b) <==> a == b
    ensures Display(a) == DisplayName(a)
  {
  }
}
