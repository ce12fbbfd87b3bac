/** The supported programming languages and their fixed names (src/config/languages.rs). */
module Languages {

  datatype Language = JavaScript | Cpp | Rust

  /** `Language::file_extension`. */
  function FileExtension(l: Language): (r: string)
    ensures |r| >= 2 && forall i :: 0 <= i < |r| ==> r[i] != '.'
  {
    match l
    case JavaScript => "js"
    case Cpp => "cpp"
    case Rust => "rs"
  }

  /** `Language::display_name`. */
  function DisplayName(l: Language): (r: string)
    ensures |r| > 0
  {
    match l
    case JavaScript => "JavaScript"
    case Cpp => "C++"
    case Rust => "Rust"
  }

  /** The `Display` implementation: writes the display name. */
  function Display(l: Language): string {
    DisplayName(l)
  }

  /** Extensions and display names are pairwise distinct, and `Display` writes exactly the display name. */
  lemma NamesIdentifyLanguage(a: Language, b: Language)
    ensures FileExtension(a) == FileExtension(b) <==> a == b
    ensures DisplayName(a) == DisplayName(b) <==> a == b
    ensures Display(a) == DisplayName(a)
  {
  }
}
