/**
  * Recovering a JSON object from the language model's reply (`extract_json` and
  * `try_extract_incomplete_json` in src/ollama/generator.rs). Whether a text is valid JSON
  * is decided by the JSON library, which is a parameter `parses` here; every property is
  * stated relative to it.
  */
module JsonExtraction {
  import opened Wrappers
  import opened Text

  type JsonCheck = string -> bool

  /**
    * The scanner state after a prefix of the candidate: brace and bracket depth, whether a
    * string is open, whether the next character is escaped, and the offset up to which the
    * text is worth keeping when it has to be repaired.
    */
  datatype Scan = Scan(braces: int, brackets: int, inString: bool, escapeNext: bool, lastValid: int)

  const InitialScan: Scan := Scan(0, 0, false, false, 0)

  /**
    * One scanner step on character `c` at offset `i`. A backslash escapes the next
    * character, inside strings or not; quotes toggle the string flag; braces and brackets
    * count only outside strings.
    */
  function Step(st: Scan, c: char, i: nat): Scan {
    if st.escapeNext then st.(escapeNext := false)
    else if c == '\\' then st.(escapeNext := true)
    else if c == '"' then st.(inString := !st.inString, lastValid := i + 1)
    else if st.inString then st.(lastValid := i + 1)
    else if c == '{' then st.(braces := st.braces + 1, lastValid := i)
    else if c == '}' then st.(braces := st.braces - 1, lastValid := i + 1)
    else if c == '[' then st.(brackets := st.brackets + 1, lastValid := i)
    else if c == ']' then st.(brackets := st.brackets - 1, lastValid := i + 1)
    else st
  }

  /** The scanner state after the first `n` characters of `u`. */
  function After(u: string, n: nat): (st: Scan)
    requires n <= |u|
    ensures 0 <= st.lastValid <= n
  {
    if n == 0 then InitialScan else Step(After(u, n - 1), u[n - 1], n - 1)
  }

  /** Braces, brackets and the string flag do not move while a string is open. */
  lemma StepIgnoresBracketsInString(st: Scan, c: char, i: nat)
    requires st.inString && c != '"'
    ensures Step(st, c, i).braces == st.braces && Step(st, c, i).brackets == st.brackets
    ensures Step(st, c, i).inString
  {
  }

  /** The character after a backslash is skipped: it only clears the escape. */
  lemma StepSkipsEscaped(st: Scan, c: char, d: char, i: nat)
    requires !st.escapeNext
    ensures Step(Step(st, '\\', i), d, i + 1) == st
  {
  }

  /** The `}` at offset `k` closes the outermost object: it is unescaped, outside strings, at depth one. */
  predicate ClosesAt(u: string, k: nat) {
    k < |u| && u[k] == '}' && var st := After(u, k); !st.escapeNext && !st.inString && st.braces == 1
  }

  /** The first closing offset at or after `from`. */
  function FirstCloseFrom(u: string, from: nat): (r: Option<nat>)
    requires from <= |u|
    ensures r.Some? ==> from <= r.value < |u| && ClosesAt(u, r.value)
    ensures r.Some? ==> forall j :: from <= j < r.value ==> !ClosesAt(u, j)
    ensures r.None? ==> forall j :: from <= j < |u| ==> !ClosesAt(u, j)
    decreases |u| - from
  {
    if from == |u| then None
    else if ClosesAt(u, from) then Some(from)
    else FirstCloseFrom(u, from + 1)
  }

  /** The `}` at offset `k` closes the outermost object and the object up to it, trimmed, parses. */
  predicate ParsedCloseAt(u: string, parses: JsonCheck, k: nat) {
    ClosesAt(u, k) && parses(Trim(u[..k + 1]))
  }

  /** The first closing offset whose object, trimmed, parses. */
  function FirstParsedCloseFrom(u: string, parses: JsonCheck, from: nat): (r: Option<nat>)
    requires from <= |u|
    ensures r.Some? ==> from <= r.value < |u| && ParsedCloseAt(u, parses, r.value)
    decreases |u| - from
  {
    if from == |u| then None
    else if ParsedCloseAt(u, parses, from) then Some(from)
    else FirstParsedCloseFrom(u, parses, from + 1)
  }

  // Repairing a truncated object.

  /** A `"` at offset `j` that is not directly preceded by a backslash. */
  predicate UnescapedQuoteAt(s: string, j: nat) {
    j < |s| && s[j] == '"' && (j == 0 || s[j - 1] != '\\')
  }

  /** The last unescaped quote below offset `n`. */
  function LastUnescapedQuoteBelow(s: string, n: nat): (r: Option<nat>)
    requires n <= |s|
    ensures r.Some? ==> r.value < n && UnescapedQuoteAt(s, r.value)
    ensures r.Some? ==> forall j :: r.value < j < n ==> !UnescapedQuoteAt(s, j)
    ensures r.None? ==> forall j :: 0 <= j < n ==> !UnescapedQuoteAt(s, j)
  {
    if n == 0 then None
    else if UnescapedQuoteAt(s, n - 1) then Some(n - 1)
    else LastUnescapedQuoteBelow(s, n - 1)
  }

  /**
    * Closing an open string: cut just after the last unescaped quote; without one, cut at
    * the last comma and close the object; without either, leave the text.
    */
  function CutOpenString(json: string): (r: string)
    ensures LastUnescapedQuoteBelow(json, |json|).Some? ==> r == json[..LastUnescapedQuoteBelow(json, |json|).value + 1]
    ensures LastUnescapedQuoteBelow(json, |json|).None? && RFind(json, ',').Some? ==>
      r == json[..RFind(json, ',').value] + "}"
    ensures LastUnescapedQuoteBelow(json, |json|).None? && RFind(json, ',').None? ==> r == json
  {
    match LastUnescapedQuoteBelow(json, |json|)
    case Some(q) => json[..q + 1]
    case None =>
      match RFind(json, ',')
      case Some(c) => json[..c] + "}"
      case None => json
  }

  /** `trim_end_matches(',')`: drops every trailing comma. */
  function TrimEndCommas(s: string): (r: string)
    ensures |r| <= |s| && r == s[..|r|]
    ensures forall i :: |r| <= i < |s| ==> s[i] == ','
    ensures r == [] || r[|r| - 1] != ','
  {
    if |s| > 0 && s[|s| - 1] == ',' then TrimEndCommas(s[..|s| - 1]) else s
  }

  const SyntaxGuideKey: string := "\"syntax_guide\""
  const CommonPatternsKey: string := "\"common_patterns\""
  const ExercisesKey: string := "\"exercises\""
  const SyntaxGuideEntry: string := " " + SyntaxGuideKey + ": \"\""
  const CommonPatternsEntry: string := ", " + CommonPatternsKey + ": []"
  const ExercisesEntry: string := ", " + ExercisesKey + ": []"

  /** Appends `entry` when the key was found missing at the start and is still missing. */
  function AddEntry(json: string, needed: bool, key: string, entry: string): string {
    if needed && !Contains(json, key) then json + entry else json
  }

  /**
    * Adding the keys the content needs when they are missing: trailing commas are dropped,
    * a separating comma is added unless the text ends with `{` or `[`, and each absent key
    * is appended with an empty value.
    */
  function InjectKeys(json: string): string {
    var needsExercises := !Contains(json, ExercisesKey);
    var needsCommonPatterns := !Contains(json, CommonPatternsKey);
    var needsSyntaxGuide := !Contains(json, SyntaxGuideKey);
    var j := TrimEndCommas(json);
    if !(needsExercises || needsCommonPatterns || needsSyntaxGuide) then j
    else
      var j1 := if EndsWith(j, "{") || EndsWith(j, "[") then j else j + ",";
      var j2 := AddEntry(j1, needsSyntaxGuide, SyntaxGuideKey, SyntaxGuideEntry);
      var j3 := AddEntry(j2, needsCommonPatterns, CommonPatternsKey, CommonPatternsEntry);
      AddEntry(j3, needsExercises, ExercisesKey, ExercisesEntry)
  }

  function Max0(n: int): nat {
    if n > 0 then n else 0
  }

  /**
    * The repaired text: the candidate up to and including the last worthwhile offset, its
    * open string closed, `brackets` `]` appended, then (for an open object) the missing
    * keys and `braces` `}`.
    */
  function Repaired(u: string, st: Scan): string
    requires |u| > 0 && 0 <= st.lastValid
  {
    var base := RepairBase(u, st);
    if st.braces > 0 then InjectKeys(base) + Repeat('}', st.braces) else base
  }

  /** The candidate up to the last valid position, with its open string cut off. */
  function CutText(u: string, st: Scan): string
    requires |u| > 0 && 0 <= st.lastValid
  {
    var keep := if st.lastValid < |u| - 1 then st.lastValid else |u| - 1;
    var json0 := u[..keep + 1];
    if st.inString then CutOpenString(json0) else json0
  }

  /** The cut text with its open arrays closed. */
  function RepairBase(u: string, st: Scan): string
    requires |u| > 0 && 0 <= st.lastValid
  {
    CutText(u, st) + Repeat(']', Max0(st.brackets))
  }

  const ConceptKey: string := "\"concept\": "
  const MinimalTail: string :=
    ", \"step_by_step\": [], \"code_examples\": [], \"syntax_guide\": \"\", \"common_patterns\": [], \"exercises\": []}"

  /** An object holding `member` followed by the empty fields. */
  function Reconstruction(member: string): (r: string)
    ensures |r| == |member| + |MinimalTail| + 1 && r[1..|member| + 1] == member
  {
    "{" + member + MinimalTail
  }

  /**
    * The last-resort reconstruction as written: from the `"concept": ` key it takes the
    * text up to the second quote after the key's start, which is the key's own closing
    * quote, so the concept's value is never kept.
    */
  function MinimalAsWritten(json: string): Option<string> {
    match Find(json, ConceptKey)
    case None => None
    case Some(cs) =>
      match Find(json[cs..], "\"")
      case None => None
      case Some(a) =>
        var conceptEnd := cs + a + 1;
        match Find(json[conceptEnd..], "\"")
        case None => None
        case Some(b) =>
          var valueEnd := conceptEnd + b + 1;
          Some(Reconstruction(json[cs..valueEnd]))
  }

  /**
    * The reconstruction as intended: the `"concept": ` member with its whole string value
    * (from the first quote after the key to the next quote), followed by empty fields.
    */
  function Minimal(json: string): Option<string> {
    match Find(json, ConceptKey)
    case None => None
    case Some(cs) =>
      var afterKey := cs + |ConceptKey|;
      match Find(json[afterKey..], "\"")
      case None => None
      case Some(a) =>
        var valueStart := afterKey + a + 1;
        match Find(json[valueStart..], "\"")
        case None => None
        case Some(b) =>
          var ve := valueStart + b;
          Some(Reconstruction(json[cs..ve + 1]))
  }

  /** After repair: the repaired text if it parses, else the minimal reconstruction if that parses. */
  function RepairAttempt(json: string, parses: JsonCheck): Option<string> {
    if parses(json) then Some(json)
    else match Minimal(json)
      case Some(m) => if parses(m) then Some(m) else None
      case None => None
  }

  /** The same step as written, with the last-resort reconstruction the program builds. */
  function RepairAttemptAsWritten(json: string, parses: JsonCheck): Option<string> {
    if parses(json) then Some(json)
    else match MinimalAsWritten(json)
      case Some(m) => if parses(m) then Some(m) else None
      case None => None
  }

  /** Whether the scan of the whole candidate ended inside an object, an array or a string. */
  predicate Unfinished(st: Scan) {
    st.braces > 0 || st.brackets > 0 || st.inString
  }

  /** What `try_extract_incomplete_json` returns for `text`. */
  function TryExtractSpec(text: string, parses: JsonCheck): Option<string> {
    match Find(text, "{")
    case None => None
    case Some(start) =>
      var u := text[start..];
      match FirstParsedCloseFrom(u, parses, 0)
      case Some(k) => Some(Trim(u[..k + 1]))
      case None =>
        var st := After(u, |u|);
        if Unfinished(st) then RepairAttempt(Repaired(u, st), parses) else None
  }

  // The scanning and repairing code.

  /**
    * The scanning loop of `try_extract_incomplete_json` over the candidate `u`: it stops at
    * the first closing `}` whose object parses, and otherwise returns the final state.
    */
  method ScanCandidate(u: string, parses: JsonCheck) returns (found: Option<string>, st: Scan)
    ensures FirstParsedCloseFrom(u, parses, 0).Some? ==> found == Some(Trim(u[..FirstParsedCloseFrom(u, parses, 0).value + 1]))
    ensures FirstParsedCloseFrom(u, parses, 0).None? ==> found == None && st == After(u, |u|)
  {
    var braceCount, bracketCount := 0, 0;
    var inString, escapeNext := false, false;
    var lastValidPos := 0;
    var i := 0;
    while i < |u|
      invariant i <= |u|
      invariant Scan(braceCount, bracketCount, inString, escapeNext, lastValidPos) == After(u, i)
      invariant FirstParsedCloseFrom(u, parses, 0) == FirstParsedCloseFrom(u, parses, i)
    {
      var ch := u[i];
      ghost var next := Step(After(u, i), ch, i);
      assert After(u, i + 1) == next;
      if escapeNext {
        escapeNext := false;
      } else if ch == '\\' {
        escapeNext := true;
      } else if ch == '"' {
        inString := !inString;
        lastValidPos := i + 1;
      } else if ch == '{' && !inString {
        braceCount := braceCount + 1;
        lastValidPos := i;
      } else if ch == '}' && !inString {
        braceCount := braceCount - 1;
        lastValidPos := i + 1;
        if braceCount == 0 {
          var json := Trim(u[..i + 1]);
          if parses(json) {
            assert ParsedCloseAt(u, parses, i);
            return Some(json), Scan(braceCount, bracketCount, inString, escapeNext, lastValidPos);
          }
        }
      } else if ch == '[' && !inString {
        bracketCount := bracketCount + 1;
        lastValidPos := i;
      } else if ch == ']' && !inString {
        bracketCount := bracketCount - 1;
        lastValidPos := i + 1;
      } else if inString {
        lastValidPos := i + 1;
      }
      assert Scan(braceCount, bracketCount, inString, escapeNext, lastValidPos) == next;
      assert !ParsedCloseAt(u, parses, i);
      i := i + 1;
    }
    found := None;
    st := Scan(braceCount, bracketCount, inString, escapeNext, lastValidPos);
  }

  /** Closing an open string, with the backwards search for the last unescaped quote. */
  method CloseOpenString(json0: string) returns (json: string)
    ensures json == CutOpenString(json0)
  {
    json := json0;
    var i := |json|;
    var lastQuoteIdx: Option<nat> := None;
    while i > 0 && lastQuoteIdx.None?
      invariant 0 <= i <= |json|
      invariant lastQuoteIdx.None? ==> LastUnescapedQuoteBelow(json, |json|) == LastUnescapedQuoteBelow(json, i)
      invariant lastQuoteIdx.Some? ==> lastQuoteIdx == LastUnescapedQuoteBelow(json, |json|)
      decreases i, if lastQuoteIdx.None? then 1 else 0
    {
      if json[i - 1] == '"' && (i - 1 == 0 || json[i - 2] != '\\') {
        lastQuoteIdx := Some(i - 1);
      } else {
        i := i - 1;
      }
    }
    match lastQuoteIdx
    case Some(q) =>
      json := json[..q + 1];
    case None =>
      match RFind(json, ',')
      case Some(c) =>
        json := json[..c] + "}";
      case None =>
  }

  /** `for _ in 0..count { json.push(c) }`: nothing when `count` is not positive. */
  method PushRepeated(json0: string, c: char, count: int) returns (json: string)
    ensures json == json0 + Repeat(c, Max0(count))
  {
    json := json0;
    var k := 0;
    while k < count
      invariant 0 <= k <= Max0(count)
      invariant json == json0 + Repeat(c, k)
    {
      json := json + [c];
      k := k + 1;
    }
  }

  /** The key injection, step by step on the growing text. */
  method InjectMissingKeys(json0: string) returns (json: string)
    ensures json == InjectKeys(json0)
  {
    var needsExercises := !Contains(json0, ExercisesKey);
    var needsCommonPatterns := !Contains(json0, CommonPatternsKey);
    var needsSyntaxGuide := !Contains(json0, SyntaxGuideKey);
    json := TrimEndCommas(json0);
    if needsExercises || needsCommonPatterns || needsSyntaxGuide {
      if !EndsWith(json, "{") && !EndsWith(json, "[") {
        json := json + ",";
      }
      if needsSyntaxGuide && !Contains(json, SyntaxGuideKey) {
        json := json + SyntaxGuideEntry;
      }
      if needsCommonPatterns && !Contains(json, CommonPatternsKey) {
        json := json + CommonPatternsEntry;
      }
      if needsExercises && !Contains(json, ExercisesKey) {
        json := json + ExercisesEntry;
      }
    }
  }

  /** The repair of `try_extract_incomplete_json`, from the candidate and the final scanner state. */
  method RepairCandidate(u: string, st: Scan) returns (json: string)
    requires |u| > 0 && 0 <= st.lastValid
    ensures json == Repaired(u, st)
  {
    var keep := if st.lastValid < |u| - 1 then st.lastValid else |u| - 1;
    json := u[..keep + 1];
    if st.inString {
      json := CloseOpenString(json);
    }
    json := PushRepeated(json, ']', st.brackets);
    assert json == RepairBase(u, st);
    if st.braces > 0 {
      json := InjectMissingKeys(json);
      json := PushRepeated(json, '}', st.braces);
    }
  }

  /**
    * `try_extract_incomplete_json`: from the first `{`, the first complete object that
    * parses; failing that, when the text ends inside an object, array or string, the
    * repaired text or the minimal reconstruction, whichever parses first; otherwise `None`.
    */
  method TryExtractIncompleteJson(text: string, parses: JsonCheck) returns (r: Option<string>)
    ensures r == TryExtractSpec(text, parses)
  {
    var start := Find(text, "{");
    if start.None? {
      return None;
    }
    var u := text[start.value..];
    assert u[0] == '{';
    var found, st := ScanCandidate(u, parses);
    if found.Some? {
      return found;
    }
    if st.braces > 0 || st.brackets > 0 || st.inString {
      var json := RepairCandidate(u, st);
      if parses(json) {
        return Some(json);
      }
      var minimal := Minimal(json);
      if minimal.Some? && parses(minimal.value) {
        return minimal;
      }
    }
    return None;
  }

  // The three candidates of `extract_json`.

  /**
    * A fenced candidate: the body starts at the first line feed after the opening marker
    * (or right after the marker when there is none) and runs to the next "```". A closed
    * fence is tried as it stands and then repaired; an unclosed one is only repaired.
    */
  function FencedCandidate(text: string, start: nat, markerLen: nat, parses: JsonCheck): Option<string>
    requires start + markerLen <= |text|
  {
    var (json, closed) := FenceBody(text, start, markerLen);
    if closed && parses(json) then Some(json) else TryExtractSpec(json, parses)
  }

  /** The trimmed body of a fence, and whether a closing "```" was found. */
  function FenceBody(text: string, start: nat, markerLen: nat): (string, bool)
    requires start + markerLen <= |text|
  {
    var js := Find(text[start + markerLen..], "\n").UnwrapOr(0) + start + markerLen;
    match Find(text[js..], "```")
    case Some(e) => (Trim(text[js..js + e]), true)
    case None => (Trim(text[js..]), false)
  }

  /** The direct candidate: from the first `{` to the `}` that closes it, or to the end. */
  function DirectCandidate(text: string, parses: JsonCheck): Option<string> {
    match Find(text, "{")
    case None => None
    case Some(start) =>
      var u := text[start..];
      var json := match FirstCloseFrom(u, 0)
        case Some(k) => Trim(u[..k + 1])
        case None => Trim(u);
      if parses(json) then Some(json) else TryExtractSpec(json, parses)
  }

  function Take(s: string, n: nat): string {
    if |s| <= n then s else s[..n]
  }

  function ExtractError(text: string): string {
    "Could not extract valid JSON from response. Response text (first 1000 chars):\n" + Take(text, 1000)
  }

  function JsonFenceCandidate(text: string, parses: JsonCheck): Option<string> {
    match Find(text, "```json")
    case Some(start) => FencedCandidate(text, start, 7, parses)
    case None => None
  }

  function BareFenceCandidate(text: string, parses: JsonCheck): Option<string> {
    match Find(text, "```")
    case Some(start) => FencedCandidate(text, start, 3, parses)
    case None => None
  }

  /** What `extract_json` returns: the first candidate that yields JSON, else an error quoting the reply. */
  function ExtractJsonSpec(text: string, parses: JsonCheck): Result<string, string> {
    var fenced := JsonFenceCandidate(text, parses);
    if fenced.Some? then Ok(fenced.value)
    else
      var bare := BareFenceCandidate(text, parses);
      if bare.Some? then Ok(bare.value)
      else
        var direct := DirectCandidate(text, parses);
        if direct.Some? then Ok(direct.value) else Err(ExtractError(text))
  }

  /** The brace-only scan of the direct candidate, stopping at the `}` that closes the object. */
  method ScanObjectEnd(u: string) returns (endPos: Option<nat>)
    ensures endPos == FirstCloseFrom(u, 0)
  {
    var braceCount := 0;
    var inString, escapeNext := false, false;
    var i := 0;
    while i < |u|
      invariant i <= |u|
      invariant braceCount == After(u, i).braces && inString == After(u, i).inString
      invariant escapeNext == After(u, i).escapeNext
      invariant FirstCloseFrom(u, 0) == FirstCloseFrom(u, i)
    {
      var ch := u[i];
      assert After(u, i + 1) == Step(After(u, i), ch, i);
      if escapeNext {
        escapeNext := false;
      } else if ch == '\\' {
        escapeNext := true;
      } else if ch == '"' {
        inString := !inString;
      } else if ch == '{' && !inString {
        braceCount := braceCount + 1;
      } else if ch == '}' && !inString {
        braceCount := braceCount - 1;
        if braceCount == 0 {
          assert ClosesAt(u, i);
          return Some(i);
        }
      }
      assert !ClosesAt(u, i);
      i := i + 1;
    }
    return None;
  }

  /** A fenced candidate, computed the way `extract_json` does for either marker. */
  method TryFence(text: string, start: nat, markerLen: nat, parses: JsonCheck) returns (r: Option<string>)
    requires start + markerLen <= |text|
    ensures r == FencedCandidate(text, start, markerLen, parses)
  {
    var jsonStart := Find(text[start + markerLen..], "\n").UnwrapOr(0) + start + markerLen;
    var endMarker := Find(text[jsonStart..], "```");
    var json := if endMarker.Some? then Trim(text[jsonStart..jsonStart + endMarker.value]) else Trim(text[jsonStart..]);
    assert FenceBody(text, start, markerLen) == (json, endMarker.Some?);
    if endMarker.Some? && parses(json) {
      return Some(json);
    }
    r := TryExtractIncompleteJson(json, parses);
  }

  /** The direct candidate, computed the way `extract_json` does. */
  method TryDirect(text: string, parses: JsonCheck) returns (r: Option<string>)
    ensures r == DirectCandidate(text, parses)
  {
    var start := Find(text, "{");
    if start.None? {
      return None;
    }
    var u := text[start.value..];
    var endPos := ScanObjectEnd(u);
    var json := if endPos.Some? then Trim(u[..endPos.value + 1]) else Trim(u);
    if parses(json) {
      return Some(json);
    }
    r := TryExtractIncompleteJson(json, parses);
  }

  /** `extract_json`: the `json` fence, then the bare fence, then the first `{`. */
  method ExtractJson(text: string, parses: JsonCheck) returns (r: Result<string, string>)
    ensures r == ExtractJsonSpec(text, parses)
  {
    var start := Find(text, "```json");
    if start.Some? {
      var candidate := TryFence(text, start.value, 7, parses);
      if candidate.Some? {
        return Ok(candidate.value);
      }
    }
    start := Find(text, "```");
    if start.Some? {
      var candidate := TryFence(text, start.value, 3, parses);
      if candidate.Some? {
        return Ok(candidate.value);
      }
    }
    var direct := TryDirect(text, parses);
    if direct.Some? {
      return Ok(direct.value);
    }
    return Err(ExtractError(text));
  }

  // Properties.

  /** The scan starts with a `{` and stays inside the object until the `}` that closes it. */
  lemma {:induction false} DepthPositiveUntilClose(u: string, j: nat)
    requires |u| > 0 && u[0] == '{'
    requires 1 <= j <= |u|
    requires forall k :: 0 <= k < j ==> !ClosesAt(u, k)
    ensures After(u, j).braces >= 1
  {
    if j > 1 {
      DepthPositiveUntilClose(u, j - 1);
      assert !ClosesAt(u, j - 1);
    }
  }

  /**
    * The direct candidate's span ends just after the `}` that brings the depth back to
    * zero, and the depth is positive at every offset before it.
    */
  lemma DirectSpanEndsAtClose(u: string)
    requires |u| > 0 && u[0] == '{'
    ensures FirstCloseFrom(u, 0).Some? ==>
      var k := FirstCloseFrom(u, 0).value;
      u[k] == '}' && After(u, k + 1).braces == 0 && forall j :: 1 <= j <= k ==> After(u, j).braces >= 1
    ensures FirstCloseFrom(u, 0).None? ==> forall j :: 1 <= j <= |u| ==> After(u, j).braces >= 1
  {
    forall j | 1 <= j <= |u| && forall k :: 0 <= k < j ==> !ClosesAt(u, k)
      ensures After(u, j).braces >= 1
    {
      DepthPositiveUntilClose(u, j);
    }
  }

  /** Every text `try_extract_incomplete_json` returns has passed the parse check. */
  lemma TryExtractParsed(text: string, parses: JsonCheck)
    ensures TryExtractSpec(text, parses).Some? ==> parses(TryExtractSpec(text, parses).value)
  {
  }

  lemma FencedParsed(text: string, start: nat, markerLen: nat, parses: JsonCheck)
    requires start + markerLen <= |text|
    ensures FencedCandidate(text, start, markerLen, parses).Some? ==> parses(FencedCandidate(text, start, markerLen, parses).value)
  {
    TryExtractParsed(FenceBody(text, start, markerLen).0, parses);
  }

  lemma DirectParsed(text: string, parses: JsonCheck)
    ensures DirectCandidate(text, parses).Some? ==> parses(DirectCandidate(text, parses).value)
  {
    match Find(text, "{")
    case Some(start) =>
      var u := text[start..];
      var json := match FirstCloseFrom(u, 0)
        case Some(k) => Trim(u[..k + 1])
        case None => Trim(u);
      TryExtractParsed(json, parses);
    case None =>
  }

  /** Every text `extract_json` returns has passed the parse check. */
  lemma ExtractJsonParsed(text: string, parses: JsonCheck)
    ensures ExtractJsonSpec(text, parses).Ok? ==> parses(ExtractJsonSpec(text, parses).value)
  {
    var a := Find(text, "```json");
    if a.Some? { FencedParsed(text, a.value, 7, parses); }
    var b := Find(text, "```");
    if b.Some? { FencedParsed(text, b.value, 3, parses); }
    DirectParsed(text, parses);
  }

  /** Repair appends exactly `braces` closing braces at the very end of an open object. */
  lemma RepairedEndsWithClosers(u: string, st: Scan)
    requires |u| > 0 && 0 <= st.lastValid && st.braces > 0
    ensures EndsWith(Repaired(u, st), Repeat('}', st.braces))
  {
  }

  /** Without an open object, repair appends exactly `brackets` closing brackets and nothing else. */
  lemma RepairedClosesArrays(u: string, st: Scan)
    requires |u| > 0 && 0 <= st.lastValid && st.braces <= 0
    ensures var keep := if st.lastValid < |u| - 1 then st.lastValid else |u| - 1;
      var json1 := if st.inString then CutOpenString(u[..keep + 1]) else u[..keep + 1];
      Repaired(u, st) == json1 + Repeat(']', Max0(st.brackets))
  {
  }

  /** Adding an entry keeps the text as a prefix. */
  lemma AddEntryExtends(json: string, needed: bool, key: string, entry: string)
    ensures |json| <= |AddEntry(json, needed, key, entry)| && AddEntry(json, needed, key, entry)[..|json|] == json
  {
  }

  /** Adding three entries in turn keeps the text as a prefix. */
  lemma AddEntriesExtend(j: string, n1: bool, k1: string, e1: string, n2: bool, k2: string, e2: string,
                         n3: bool, k3: string, e3: string)
    ensures StartsWith(AddEntry(AddEntry(AddEntry(j, n1, k1, e1), n2, k2, e2), n3, k3, e3), j)
  {
    var j2 := AddEntry(j, n1, k1, e1);
    var j3 := AddEntry(j2, n2, k2, e2);
    AddEntryExtends(j, n1, k1, e1);
    AddEntryExtends(j2, n2, k2, e2);
    AddEntryExtends(j3, n3, k3, e3);
    assert AddEntry(j3, n3, k3, e3)[..|j|] == j3[..|j2|][..|j|];
  }

  /** Injecting keys only appends to the text with its trailing commas dropped. */
  lemma InjectKeysExtends(json: string)
    ensures StartsWith(InjectKeys(json), TrimEndCommas(json))
  {
    var j := TrimEndCommas(json);
    var j1 := if EndsWith(j, "{") || EndsWith(j, "[") then j else j + ",";
    AddEntriesExtend(j1, !Contains(json, SyntaxGuideKey), SyntaxGuideKey, SyntaxGuideEntry,
      !Contains(json, CommonPatternsKey), CommonPatternsKey, CommonPatternsEntry,
      !Contains(json, ExercisesKey), ExercisesKey, ExercisesEntry);
    assert j1[..|j|] == j;
  }

  /** A text that does not end in a comma loses nothing to the trimming of trailing commas. */
  lemma TrimEndCommasNoComma(s: string)
    requires s != [] && s[|s| - 1] != ','
    ensures TrimEndCommas(s) == s
  {
  }

  /**
    * The layout of a repaired open object: the cut text (with its trailing commas dropped
    * when no array is open) comes first; when arrays are open, their `]` run follows the cut
    * text directly; the injected keys come next and the `}` run last, after the `]` run.
    */
  lemma RepairedObjectLayout(u: string, st: Scan)
    requires |u| > 0 && 0 <= st.lastValid && st.braces > 0
    ensures st.brackets > 0 ==>
      StartsWith(Repaired(u, st), CutText(u, st) + Repeat(']', st.brackets)) &&
      |CutText(u, st)| + st.brackets + st.braces <= |Repaired(u, st)|
    ensures st.brackets <= 0 ==>
      StartsWith(Repaired(u, st), TrimEndCommas(CutText(u, st))) &&
      |TrimEndCommas(CutText(u, st))| + st.braces <= |Repaired(u, st)|
    ensures EndsWith(Repaired(u, st), Repeat('}', st.braces))
  {
    var base := RepairBase(u, st);
    InjectKeysExtends(base);
    if st.brackets > 0 {
      assert base[|base| - 1] == ']';
      TrimEndCommasNoComma(base);
    } else {
      assert base == CutText(u, st);
    }
    var r := Repaired(u, st);
    assert r == InjectKeys(base) + Repeat('}', st.braces);
    assert r[..|TrimEndCommas(base)|] == InjectKeys(base)[..|TrimEndCommas(base)|];
  }

  /** A key that ends in a quote survives the trimming of trailing commas. */
  lemma ContainsAfterTrimCommas(s: string, key: string)
    requires |key| > 0 && key[|key| - 1] == '"' && Contains(s, key)
    ensures Contains(TrimEndCommas(s), key)
  {
    var i: nat :| i <= |s| && MatchAt(s, key, i);
    var r := TrimEndCommas(s);
    assert s[i + |key| - 1] == key[|key| - 1];
    assert i + |key| <= |r|;
    assert r[i..i + |key|] == s[i..i + |key|];
    assert MatchAt(r, key, i);
  }

  /** An appended entry keeps every text that was already there. */
  lemma AddEntryKeeps(json: string, needed: bool, key: string, entry: string, other: string)
    requires Contains(json, other)
    ensures Contains(AddEntry(json, needed, key, entry), other)
  {
    if needed && !Contains(json, key) {
      ContainsInPrefix(json, entry, other);
    }
  }

  /** A needed entry that holds the key leaves the key present. */
  lemma AddEntryAdds(json: string, key: string, pre: string, post: string)
    ensures Contains(AddEntry(json, true, key, pre + key + post), key)
  {
    if !Contains(json, key) {
      ContainsMiddle(json + pre, key, post);
      assert json + (pre + key + post) == json + pre + key + post;
    }
  }

  /** After injection the text holds all three keys the content needs. */
  lemma InjectKeysComplete(json: string)
    ensures Contains(InjectKeys(json), SyntaxGuideKey)
    ensures Contains(InjectKeys(json), CommonPatternsKey)
    ensures Contains(InjectKeys(json), ExercisesKey)
  {
    var needsExercises := !Contains(json, ExercisesKey);
    var needsCommonPatterns := !Contains(json, CommonPatternsKey);
    var needsSyntaxGuide := !Contains(json, SyntaxGuideKey);
    var j := TrimEndCommas(json);
    if !needsExercises { ContainsAfterTrimCommas(json, ExercisesKey); }
    if !needsCommonPatterns { ContainsAfterTrimCommas(json, CommonPatternsKey); }
    if !needsSyntaxGuide { ContainsAfterTrimCommas(json, SyntaxGuideKey); }
    if needsExercises || needsCommonPatterns || needsSyntaxGuide {
      var j1 := if EndsWith(j, "{") || EndsWith(j, "[") then j else j + ",";
      if !needsExercises { ContainsInPrefix(j, j1[|j|..], ExercisesKey); assert j + j1[|j|..] == j1; }
      if !needsCommonPatterns { ContainsInPrefix(j, j1[|j|..], CommonPatternsKey); assert j + j1[|j|..] == j1; }
      if !needsSyntaxGuide { ContainsInPrefix(j, j1[|j|..], SyntaxGuideKey); assert j + j1[|j|..] == j1; }
      var j2 := AddEntry(j1, needsSyntaxGuide, SyntaxGuideKey, SyntaxGuideEntry);
      if needsSyntaxGuide { AddEntryAdds(j1, SyntaxGuideKey, " ", ": \"\""); }
      else { AddEntryKeeps(j1, false, SyntaxGuideKey, SyntaxGuideEntry, SyntaxGuideKey); }
      if !needsCommonPatterns { AddEntryKeeps(j1, needsSyntaxGuide, SyntaxGuideKey, SyntaxGuideEntry, CommonPatternsKey); }
      if !needsExercises { AddEntryKeeps(j1, needsSyntaxGuide, SyntaxGuideKey, SyntaxGuideEntry, ExercisesKey); }
      var j3 := AddEntry(j2, needsCommonPatterns, CommonPatternsKey, CommonPatternsEntry);
      if needsCommonPatterns { AddEntryAdds(j2, CommonPatternsKey, ", ", ": []"); }
      else { AddEntryKeeps(j2, false, CommonPatternsKey, CommonPatternsEntry, CommonPatternsKey); }
      AddEntryKeeps(j2, needsCommonPatterns, CommonPatternsKey, CommonPatternsEntry, SyntaxGuideKey);
      if !needsExercises { AddEntryKeeps(j2, needsCommonPatterns, CommonPatternsKey, CommonPatternsEntry, ExercisesKey); }
      var j4 := AddEntry(j3, needsExercises, ExercisesKey, ExercisesEntry);
      if needsExercises { AddEntryAdds(j3, ExercisesKey, ", ", ": []"); }
      else { AddEntryKeeps(j3, false, ExercisesKey, ExercisesEntry, ExercisesKey); }
      AddEntryKeeps(j3, needsExercises, ExercisesKey, ExercisesEntry, SyntaxGuideKey);
      AddEntryKeeps(j3, needsExercises, ExercisesKey, ExercisesEntry, CommonPatternsKey);
      assert InjectKeys(json) == j4;
    }
  }

  /** When all three keys are already present nothing is injected: only trailing commas go. */
  lemma InjectKeysNothingMissing(json: string)
    requires Contains(json, SyntaxGuideKey) && Contains(json, CommonPatternsKey) && Contains(json, ExercisesKey)
    ensures InjectKeys(json) == TrimEndCommas(json)
  {
  }

  /** After repairing an open object the result holds the three keys the content needs. */
  lemma RepairedObjectComplete(u: string, st: Scan)
    requires |u| > 0 && 0 <= st.lastValid && st.braces > 0
    ensures Contains(Repaired(u, st), SyntaxGuideKey)
    ensures Contains(Repaired(u, st), CommonPatternsKey)
    ensures Contains(Repaired(u, st), ExercisesKey)
  {
    var base := RepairBase(u, st);
    var closers := Repeat('}', st.braces);
    InjectKeysComplete(base);
    ContainsInPrefix(InjectKeys(base), closers, SyntaxGuideKey);
    ContainsInPrefix(InjectKeys(base), closers, CommonPatternsKey);
    ContainsInPrefix(InjectKeys(base), closers, ExercisesKey);
  }

  /** `Find` of a one-character pattern stops at the first occurrence of the character. */
  lemma FindCharAt(s: string, c: char, i: nat)
    requires i < |s| && s[i] == c
    requires forall j :: 0 <= j < i ==> s[j] != c
    ensures Find(s, [c]) == Some(i)
  {
    assert s[i..i + 1] == [c];
    FindFirstAt(s, [c], i);
  }

  /**
    * As written, the last-resort reconstruction never depends on the concept: whenever the
    * text has a `"concept": ` key it is `{"concept"` followed by the empty fields, a key
    * without a value.
    */
  lemma MinimalAsWrittenIgnoresConcept(json: string)
    ensures MinimalAsWritten(json).Some? <==> Contains(json, ConceptKey)
    ensures MinimalAsWritten(json).Some? ==> MinimalAsWritten(json).value == Reconstruction("\"concept\"")
  {
    var f := Find(json, ConceptKey);
    if f.Some? {
      var cs := f.value;
      var t := json[cs..];
      assert t[..|ConceptKey|] == ConceptKey;
      ConceptKeyQuotes(t);
      assert t[1..] == json[cs + 1..];
      assert json[cs..cs + 9] == t[..9] == ConceptKey[..9];
    }
  }

  /**
    * As written, the reconstruction step can only succeed if `{"concept"` followed by the
    * empty fields parses; for any JSON parser it does not, so the step adds nothing to
    * trying the repaired text itself.
    */
  lemma RepairAttemptAsWrittenAddsNothing(json: string, parses: JsonCheck)
    requires !parses(Reconstruction("\"concept\""))
    ensures RepairAttemptAsWritten(json, parses) == (if parses(json) then Some(json) else None)
  {
    MinimalAsWrittenIgnoresConcept(json);
  }

  /** In a text that starts with the key, the first quote opens the key and the next one closes it. */
  lemma ConceptKeyQuotes(t: string)
    requires |ConceptKey| <= |t| && t[..|ConceptKey|] == ConceptKey
    ensures Find(t, "\"") == Some(0)
    ensures Find(t[1..], "\"") == Some(7)
    ensures ConceptKey[..9] == "\"concept\""
  {
    assert t[0] == ConceptKey[0] == '"';
    FindCharAt(t, '"', 0);
    assert forall j :: 0 <= j < 8 ==> t[1..][j] == ConceptKey[j + 1];
    FindCharAt(t[1..], '"', 7);
  }

  /** In a text that starts with a quoted value, the first two quotes delimit the value. */
  lemma QuotedValueQuotes(t: string, value: string)
    requires |value| + 2 <= |t| && t[..|value| + 2] == "\"" + value + "\""
    requires forall i :: 0 <= i < |value| ==> value[i] != '"'
    ensures Find(t, "\"") == Some(0)
    ensures Find(t[1..], "\"") == Some(|value|)
  {
    assert t[0] == t[..|value| + 2][0];
    FindCharAt(t, '"', 0);
    assert forall i :: 0 <= i <= |value| ==> t[1..][i] == t[..|value| + 2][i + 1];
    FindCharAt(t[1..], '"', |value|);
  }

  /** Where the quoted concept value begins, the intended reconstruction keeps it whole. */
  lemma MinimalOfValue(json: string, cs: nat, value: string)
    requires cs + |ConceptKey| + |value| + 2 <= |json| && Find(json, ConceptKey) == Some(cs)
    requires json[cs + |ConceptKey|..][..|value| + 2] == "\"" + value + "\""
    requires forall i :: 0 <= i < |value| ==> value[i] != '"'
    ensures Minimal(json) == Some(Reconstruction(ConceptKey + "\"" + value + "\""))
  {
    var afterKey := cs + |ConceptKey|;
    var t := json[afterKey..];
    QuotedValueQuotes(t, value);
    assert t[1..] == json[afterKey + 1..];
    var ve := afterKey + 1 + |value|;
    assert json[cs..afterKey] == ConceptKey;
    assert json[afterKey..ve + 1] == t[..|value| + 2];
    assert json[cs..ve + 1] == json[cs..afterKey] + json[afterKey..ve + 1];
    assert ConceptKey + ("\"" + value + "\"") == ConceptKey + "\"" + value + "\"";
    MinimalFound(json, cs, 0, |value|);
  }

  /**
    * Whatever the intended reconstruction returns is `{` + a copy of the text from a
    * `"concept": ` key up to a later quote, followed by the empty fields.
    */
  lemma MinimalShape(json: string)
    ensures Minimal(json).Some? ==> exists cs: nat, ve: nat :: ReconstructedFrom(json, Minimal(json).value, cs, ve)
  {
    match Find(json, ConceptKey)
    case None =>
    case Some(cs) =>
      var afterKey := cs + |ConceptKey|;
      match Find(json[afterKey..], "\"")
      case None =>
      case Some(a) =>
        var valueStart := afterKey + a + 1;
        match Find(json[valueStart..], "\"")
        case None =>
        case Some(b) =>
          var ve := valueStart + b;
          assert json[ve] == json[valueStart..][b];
          MinimalFound(json, cs, a, b);
          assert ReconstructedFrom(json, Minimal(json).value, cs, ve);
  }

  /** `r` wraps the text from a `"concept": ` key at `cs` up to the quote at `ve`. */
  predicate ReconstructedFrom(json: string, r: string, cs: nat, ve: nat) {
    cs + |ConceptKey| < ve < |json| && MatchAt(json, ConceptKey, cs) && json[ve] == '"'
    && r == Reconstruction(json[cs..ve + 1])
  }

  /** The intended reconstruction once the key and the two quotes after it have been found. */
  lemma MinimalFound(json: string, cs: nat, a: nat, b: nat)
    requires cs + |ConceptKey| + a + b + 2 <= |json| && Find(json, ConceptKey) == Some(cs)
    requires Find(json[cs + |ConceptKey|..], "\"") == Some(a)
    requires Find(json[cs + |ConceptKey| + a + 1..], "\"") == Some(b)
    ensures Minimal(json) == Some(Reconstruction(json[cs..cs + |ConceptKey| + a + b + 2]))
  {
  }

  /**
    * The intended reconstruction keeps the concept member whole: for a text with the key
    * followed by a quoted value, it is `{` + key + quoted value + the empty fields.
    */
  lemma MinimalKeepsConcept(pre: string, value: string, post: string)
    requires forall i :: 0 <= i < |pre| ==> pre[i] != '"'
    requires forall i :: 0 <= i < |value| ==> value[i] != '"'
    ensures Minimal(pre + ConceptKey + "\"" + value + "\"" + post)
      == Some(Reconstruction(ConceptKey + "\"" + value + "\""))
  {
    var rest := "\"" + value + "\"" + post;
    var json := pre + ConceptKey + "\"" + value + "\"" + post;
    assert json == pre + (ConceptKey + rest);
    var cs := |pre|;
    assert json[cs..cs + |ConceptKey|] == ConceptKey;
    assert forall j :: 0 <= j < cs ==> json[j] == pre[j];
    FindFirstAt(json, ConceptKey, cs);
    assert json[cs + |ConceptKey|..] == rest;
    assert rest[..|value| + 2] == "\"" + value + "\"";
    MinimalOfValue(json, cs, value);
  }

  /**
    * On every text with a quoted concept value the reconstruction as written and the
    * intended one differ: the one as written has dropped the value.
    */
  lemma MinimalAsWrittenLosesValue(pre: string, value: string, post: string)
    requires forall i :: 0 <= i < |pre| ==> pre[i] != '"'
    requires forall i :: 0 <= i < |value| ==> value[i] != '"'
    ensures MinimalAsWritten(pre + ConceptKey + "\"" + value + "\"" + post) == Some(Reconstruction("\"concept\""))
    ensures MinimalAsWritten(pre + ConceptKey + "\"" + value + "\"" + post) != Minimal(pre + ConceptKey + "\"" + value + "\"" + post)
  {
    var rest := "\"" + value + "\"" + post;
    var json := pre + ConceptKey + "\"" + value + "\"" + post;
    assert json == pre + ConceptKey + rest;
    ContainsMiddle(pre, ConceptKey, rest);
    MinimalAsWrittenIgnoresConcept(json);
    MinimalKeepsConcept(pre, value, post);
  }

  /** Where the fenced body starts, the closing fence is the first backtick after it. */
  lemma ClosingFenceFound(body: string, post: string)
    requires forall i :: 0 <= i < |body| ==> body[i] != '`'
    ensures Find("\n" + body + "\n```" + post, "```") == Some(|body| + 2)
  {
    var rest := "\n" + body + "\n```" + post;
    var e := |body| + 2;
    assert rest[e..e + 3] == "```";
    assert forall i :: 1 <= i < e - 1 ==> rest[i] == body[i - 1];
    FindFirstAt(rest, "```", e);
  }

  /** When the text after the marker starts with a line feed, the body runs from there to the closing fence. */
  lemma FenceBodyFromRest(text: string, start: nat, markerLen: nat, rest: string, e: nat)
    requires start + markerLen <= |text| && text[start + markerLen..] == rest
    requires Find(rest, "\n") == Some(0) && Find(rest, "```") == Some(e)
    ensures FenceBody(text, start, markerLen) == (Trim(rest[..e]), true)
  {
    assert text[start + markerLen..start + markerLen + e] == rest[..e];
  }

  /** After the marker: a line feed, the body, a line feed and the closing fence. */
  lemma ClosedFenceRest(body: string, post: string)
    requires forall i :: 0 <= i < |body| ==> body[i] != '`'
    ensures Find("\n" + body + "\n```" + post, "\n") == Some(0)
    ensures Find("\n" + body + "\n```" + post, "```") == Some(|body| + 2)
    ensures Trim(("\n" + body + "\n```" + post)[..|body| + 2]) == Trim(body)
  {
    var rest := "\n" + body + "\n```" + post;
    FindCharAt(rest, '\n', 0);
    assert "\n" == ['\n'];
    ClosingFenceFound(body, post);
    assert rest[..|body| + 2] == "\n" + body + "\n";
    TrimIgnoresSurroundingWhitespace("\n", body, "\n");
  }

  /** The body of a closed fence placed right after the marker is the trimmed text between the line feeds. */
  lemma FenceBodyOfClosedFence(pre: string, body: string, post: string)
    requires forall i :: 0 <= i < |body| ==> body[i] != '`'
    ensures |pre| + 7 <= |pre + "```json\n" + body + "\n```" + post|
    ensures FenceBody(pre + "```json\n" + body + "\n```" + post, |pre|, 7) == (Trim(body), true)
  {
    var rest := "\n" + body + "\n```" + post;
    var text := pre + "```json\n" + body + "\n```" + post;
    assert text == pre + "```json" + rest;
    assert text[|pre| + 7..] == rest;
    ClosedFenceRest(body, post);
    FenceBodyFromRest(text, |pre|, 7, rest, |body| + 2);
  }

  /** The `json` marker is found where it is placed when no backtick comes before it. */
  lemma JsonMarkerFound(pre: string, rest: string)
    requires forall i :: 0 <= i < |pre| ==> pre[i] != '`'
    ensures Find(pre + "```json" + rest, "```json") == Some(|pre|)
  {
    var text := pre + "```json" + rest;
    assert text[|pre|..|pre| + 7] == "```json";
    assert forall j :: 0 <= j < |pre| ==> text[j] == pre[j];
    FindFirstAt(text, "```json", |pre|);
  }

  /**
    * A reply holding a ```json fence around text that parses yields that text, trimmed,
    * when nothing before the fence and nothing inside it is a backtick.
    */
  lemma FencedJsonReturned(pre: string, body: string, post: string, parses: JsonCheck)
    requires forall i :: 0 <= i < |pre| ==> pre[i] != '`'
    requires forall i :: 0 <= i < |body| ==> body[i] != '`'
    requires parses(Trim(body))
    ensures ExtractJsonSpec(pre + "```json\n" + body + "\n```" + post, parses) == Ok(Trim(body))
  {
    var rest := "\n" + body + "\n```" + post;
    var text := pre + "```json\n" + body + "\n```" + post;
    assert text == pre + "```json" + rest;
    JsonMarkerFound(pre, rest);
    FenceBodyOfClosedFence(pre, body, post);
    assert JsonFenceCandidate(text, parses) == Some(Trim(body));
  }
}
