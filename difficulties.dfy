/** Difficulty levels (src/config/difficulties.rs). */
module Difficulties {

  datatype Difficulty = Beginner | Intermediate | Advanced

  /** Position in the declaration order Beginner, Intermediate, Advanced. */
  function Level(d: Difficulty): nat {
    match d
    case Beginner => 0
    case Intermediate => 1
    case Advanced => 2
  }

  /** `Difficulty::display_name`: total over the variants. */
  function DisplayName(d: Difficulty): (r: string)
    ensures |r| > 0
  {
    match d
    case Beginner => "Beginner"
    case Intermediate => "Intermediate"
    case Advanced => "Advanced"
  }

  /** The `Display` implementation: writes the display name. */
  function Display(d: Difficulty): string {
    DisplayName(d)
  }

  /**
    * Display names are pairwise distinct, so counters keyed by them never merge two
    * difficulties; `Display` writes exactly the display name.
    */
  lemma NamesIdentifyDifficulty(a: Difficulty, b: Difficulty)
    ensures DisplayName(a) == DisplayName(b) <==> a == b
    ensures Display(a) == DisplayName(a)
  {
  }
}
