/**
 * Step 5: the user interview. Five questions, each with a parser for a
 * non-blank answer and a default for a blank one; the raw answers, keyed by
 * question id, are then structured into the overlay. Answers are a stream
 * `input`, read from index `at` on.
 */
module Interview {
  import opened Wrappers
  import opened Text
  import opened Records

  /** A raw answer: None, a text, the tools record, or a list. */
  datatype Answer =
    | NoAnswer
    | TextAnswer(text: string)
    | ToolsAnswer(required: seq<string>, forbidden: seq<string>)
    | ListAnswer(items: seq<string>)

  datatype Question = Compliance | Tools | Format | Priority | Failures

  /** QUESTIONS, in the order they are asked. */
  const Questions: seq<Question> := [Compliance, Tools, Format, Priority, Failures]

  function Id(q: Question): string
  {
    match q
    case Compliance => "compliance"
    case Tools => "tools"
    case Format => "format"
    case Priority => "priority"
    case Failures => "failures"
  }

  // ---------------------------------------------------------------- the parsers

  const MustUse: string := "Must use:"
  const CannotUse: string := "Cannot use:"

  /** Every word of the text before the first comma after the last "Must use:". */
  function RequiredTools(ans: string): seq<string>
  {
    NonBlank(Words(Split(Last(SplitOn(ans, MustUse)), ',')[0]))
  }

  /** Every trimmed comma piece after the last "Cannot use:", or of the whole answer without one. */
  function ForbiddenTools(ans: string): seq<string>
  {
    NonBlank(Split(Last(SplitOn(ans, CannotUse)), ','))
  }

  /** The failure points: at most three trimmed, non-empty lines. */
  function FailureLines(ans: string): (lines: seq<string>)
    ensures |lines| <= 3
    ensures forall k | 0 <= k < |lines| :: lines[k] != [] && Strip(lines[k]) == lines[k] && '\n' !in lines[k]
  {
    var pieces := Split(ans, '\n');
    NonBlankAbsent(pieces, '\n');
    Take(NonBlank(pieces), 3)
  }

  /** The priority: trimmed and lower-cased. */
  function PriorityOf(ans: string): (p: string)
    ensures |p| <= |ans|
    ensures forall i | 0 <= i < |p| :: !IsUpper(p[i])
    ensures p == [] <==> forall k | 0 <= k < |ans| :: IsSpace(ans[k])
  {
    Lower(Strip(ans))
  }

  /** The parser of question q; the empty answer takes the parser's own else-branch. */
  function Parse(q: Question, ans: string): Answer
  {
    match q
    case Compliance => if ans == "" then NoAnswer else TextAnswer(Strip(ans))
    case Tools => if ans == "" then ToolsAnswer([], []) else ToolsAnswer(RequiredTools(ans), ForbiddenTools(ans))
    case Format => if ans == "" then NoAnswer else TextAnswer(Strip(ans))
    case Priority => if ans == "" then TextAnswer("balanced") else TextAnswer(PriorityOf(ans))
    case Failures => if ans == "" then ListAnswer([]) else ListAnswer(FailureLines(ans))
  }

  // ---------------------------------------------------------------- defaults

  const Defaults: map<string, Answer> := map[
    "compliance" := NoAnswer,
    "tools" := ToolsAnswer([], []),
    "format" := NoAnswer,
    "priority" := TextAnswer("balanced"),
    "failures" := ListAnswer([])]

  /** _get_default_answer: defaults.get(question_id). */
  function DefaultAnswer(id: string): Answer
  {
    if id in Defaults then Defaults[id] else NoAnswer
  }

  /** An id that is not one of the five questions has no default. */
  lemma DefaultUnknown(id: string)
    requires forall q: Question :: id != Id(q)
    ensures DefaultAnswer(id) == NoAnswer
  {
    assert id != Id(Compliance) && id != Id(Tools) && id != Id(Format);
    assert id != Id(Priority) && id != Id(Failures);
  }

  /** The empty answer parses to the question's default. */
  lemma ParseEmptyIsDefault(q: Question)
    ensures Parse(q, "") == DefaultAnswer(Id(q))
  {
  }

  // ---------------------------------------------------------------- structuring

  const FormatExample: string := "[Will be provided" + " by external canon]"

  /** _parse_format: nothing for a missing or empty text. */
  function ParseFormat(s: Option<string>): (f: Option<OutputFormat>)
    ensures f.None? <==> s.None? || s.value == ""
    ensures f.Some? ==> f.value.description == s.value && f.value.example == FormatExample
  {
    if s.None? || s.value == "" then None else Some(OutputFormat(s.value, FormatExample))
  }

  /** raw.get(id) read as text: only a text answer gives one. */
  function TextOf(raw: map<string, Answer>, id: string): Option<string>
  {
    if id in raw && raw[id].TextAnswer? then Some(raw[id].text) else None
  }

  /**
   * _structure_overlay. The tools and failures answers default to empty lists and
   * the priority to "balanced" when their key is missing.
   */
  function StructureOverlay(raw: map<string, Answer>): Overlay
  {
    var tools := if "tools" in raw && raw["tools"].ToolsAnswer? then raw["tools"] else ToolsAnswer([], []);
    Overlay(
      TextOf(raw, "compliance"),
      tools.required,
      tools.forbidden,
      ParseFormat(TextOf(raw, "format")),
      if "priority" in raw && raw["priority"].TextAnswer? then raw["priority"].text else "balanced",
      if "failures" in raw && raw["failures"].ListAnswer? then raw["failures"].items else [])
  }

  /** The overlay of an interview that used every default. */
  const DefaultOverlay: Overlay := Overlay(None, [], [], None, "balanced", [])

  // ---------------------------------------------------------------- the two interview modes

  /** The raw answer stored for question q when the user typed `typed`. */
  function Recorded(q: Question, typed: string): Answer
  {
    var answer := Strip(typed);
    if answer == "" then DefaultAnswer(Id(q)) else Parse(q, answer)
  }

  /** The raw answers after the first n questions of the interactive loop. */
  function AnswersUpTo(input: nat -> string, at: nat, n: nat): map<string, Answer>
    requires n <= |Questions|
  {
    if n == 0 then map[]
    else AnswersUpTo(input, at, n - 1)[Id(Questions[n - 1]) := Recorded(Questions[n - 1], input(at + n - 1))]
  }

  lemma AnswersStep(input: nat -> string, at: nat, i: nat, value: Answer)
    requires i < |Questions|
    requires value == Recorded(Questions[i], input(at + i))
    ensures AnswersUpTo(input, at, i + 1) == AnswersUpTo(input, at, i)[Id(Questions[i]) := value]
  {
  }

  /** The raw answers after the first n questions of the defaults loop. */
  function DefaultsUpTo(n: nat): map<string, Answer>
    requires n <= |Questions|
  {
    if n == 0 then map[] else DefaultsUpTo(n - 1)[Id(Questions[n - 1]) := DefaultAnswer(Id(Questions[n - 1]))]
  }

  /** _interview_interactive: one answer per question, blank answers replaced by the default. */
  method InterviewInteractive(input: nat -> string, at: nat) returns (overlay: Overlay, next: nat)
    ensures overlay == StructureOverlay(AnswersUpTo(input, at, 5))
    ensures next == at + 5
  {
    var raw: map<string, Answer> := map[];
    var i := 0;
    while i < |Questions|
      invariant 0 <= i <= |Questions|
      invariant raw == AnswersUpTo(input, at, i)
    {
      var q := Questions[i];
      var value := Recorded(q, input(at + i));
      AnswersStep(input, at, i, value);
      raw := raw[Id(q) := value];
      i := i + 1;
    }
    overlay := StructureOverlay(raw);
    next := at + 5;
  }

  /** _interview_defaults. */
  method InterviewDefaults() returns (overlay: Overlay)
    ensures overlay == DefaultOverlay
  {
    var raw: map<string, Answer> := map[];
    var i := 0;
    while i < |Questions|
      invariant 0 <= i <= |Questions|
      invariant raw == DefaultsUpTo(i)
    {
      var q := Questions[i];
      raw := raw[Id(q) := DefaultAnswer(Id(q))];
      i := i + 1;
    }
    DefaultsOverlay();
    overlay := StructureOverlay(raw);
  }

  /** The overlay the interview produces in either mode. */
  function OverlayOf(interactive: bool, input: nat -> string, at: nat): Overlay
  {
    if interactive then StructureOverlay(AnswersUpTo(input, at, 5)) else DefaultOverlay
  }

  /**
   * interview: interactive or with defaults. The non-interactive branch of the source returns
   * the defaults coroutine without awaiting it; it is modelled as returning the default overlay.
   */
  method Conduct(interactive: bool, input: nat -> string, at: nat) returns (overlay: Overlay, next: nat)
    ensures overlay == OverlayOf(interactive, input, at)
    ensures interactive ==> overlay == StructureOverlay(AnswersUpTo(input, at, 5)) && next == at + 5
    ensures !interactive ==> overlay == DefaultOverlay && next == at
  {
    if interactive {
      overlay, next := InterviewInteractive(input, at);
    } else {
      overlay := InterviewDefaults();
      next := at;
    }
  }

  /** The five ids are distinct. */
  lemma IdsDistinct()
    ensures forall q, r: Question | q != r :: Id(q) != Id(r)
  {
  }

  lemma DefaultsOverlay()
    ensures StructureOverlay(DefaultsUpTo(5)) == DefaultOverlay
  {
    var raw := DefaultsUpTo(5);
    IdsDistinct();
    assert Questions[0] == Compliance && Questions[1] == Tools && Questions[2] == Format;
    assert Questions[3] == Priority && Questions[4] == Failures;
    assert raw["tools"] == ToolsAnswer([], []);
    assert raw["priority"] == TextAnswer("balanced");
    assert raw["failures"] == ListAnswer([]);
    assert raw["compliance"] == NoAnswer && raw["format"] == NoAnswer;
  }

  /** Blank answers throughout give exactly the default overlay. */
  lemma {:induction false} BlankMatchesDefaults(input: nat -> string, at: nat, n: nat)
    requires n <= |Questions|
    requires forall j | at <= j < at + n :: Strip(input(j)) == ""
    ensures AnswersUpTo(input, at, n) == DefaultsUpTo(n)
  {
    if n > 0 {
      BlankMatchesDefaults(input, at, n - 1);
      assert Strip(input(at + n - 1)) == "";
    }
  }

  lemma BlankInterview(input: nat -> string, at: nat)
    requires forall j | at <= j < at + 5 :: Strip(input(j)) == ""
    ensures StructureOverlay(AnswersUpTo(input, at, 5)) == DefaultOverlay
  {
    BlankMatchesDefaults(input, at, 5);
    DefaultsOverlay();
  }

  // ---------------------------------------------------------------- the tools parser

  lemma MarkersUnique()
    ensures UniqueHead(MustUse) && UniqueHead(CannotUse)
  {
  }

  /** The words of a text are already trimmed and non-empty, so the strip filter keeps them all. */
  lemma WordsKept(s: string)
    ensures NonBlank(Words(s)) == Words(s)
  {
    var ws := Words(s);
    forall k | 0 <= k < |ws|
      ensures ws[k] != [] && Strip(ws[k]) == ws[k]
    {
      StripFixed(ws[k]);
    }
    NonBlankFixed(ws);
  }

  /** Without a "Cannot use:" marker the forbidden tools are every trimmed comma piece of the answer. */
  lemma ForbiddenWithoutMarker(ans: string)
    requires !Contains(ans, CannotUse)
    ensures ForbiddenTools(ans) == NonBlank(Split(ans, ','))
  {
    SplitOnAbsent(ans, CannotUse);
  }

  /** With one, they are the comma pieces after the last marker. */
  lemma ForbiddenAfterMarker(x: string, y: string)
    requires !Contains(y, CannotUse)
    ensures ForbiddenTools(x + CannotUse + y) == NonBlank(Split(y, ','))
  {
    MarkersUnique();
    LastPieceAfter(x, CannotUse, y);
  }

  /** A pattern whose first character is missing does not occur. */
  lemma HeadMissing(s: string, p: string)
    requires |p| > 0 && p[0] !in s
    ensures !Contains(s, p)
  {
    AbsentChar(s, p, 0);
  }

  /** "Must use:" followed by a comma-free a, a comma and the rest requires the words of a. */
  lemma RequiredLayout(a: string, rest: string)
    requires ',' !in a && 'M' !in a && 'M' !in rest
    ensures RequiredTools(MustUse + (a + "," + rest)) == Words(a)
  {
    var y := a + "," + rest;
    assert 'M' !in y;
    HeadMissing(y, MustUse);
    MarkersUnique();
    assert MustUse + y == [] + MustUse + y;
    LastPieceAfter([], MustUse, y);
    SplitAtSeparator(a, ',', rest);
    WordsKept(a);
  }

  /**
   * The layout of the help text's example: "Must use:" a "," b "Cannot use:" c.
   * The required tools are the words of a and the forbidden ones the comma pieces of c.
   */
  lemma ToolsLayout(a: string, b: string, c: string)
    requires ',' !in a
    requires 'M' !in a && 'M' !in b && 'M' !in c && 'C' !in c
    ensures var ans := MustUse + a + "," + b + CannotUse + c;
      RequiredTools(ans) == Words(a) && ForbiddenTools(ans) == NonBlank(Split(c, ','))
  {
    var rest := b + CannotUse + c;
    var ans := MustUse + a + "," + b + CannotUse + c;
    assert 'M' !in CannotUse;
    assert 'M' !in rest;
    var k := ",";
    AppendAssoc(MustUse + a + k + b, CannotUse, c);
    AppendAssoc(MustUse + a + k, b, CannotUse + c);
    AppendAssoc(MustUse + a, k, b + (CannotUse + c));
    AppendAssoc(MustUse, a, k + (b + (CannotUse + c)));
    AppendAssoc(a, k, rest);
    AppendAssoc(b, CannotUse, c);
    RequiredLayout(a, rest);
    HeadMissing(c, CannotUse);
    ForbiddenAfterMarker(MustUse + a + "," + b, c);
  }

  /** The help text's example answer, "Must use: PostgreSQL, Python. Cannot use: AWS, JavaScript". */
  const ExampleRequired: string := " PostgreSQL"
  const ExampleOthers: string := " Python. "
  const ExampleForbidden: string := " AWS, JavaScript"
  const ExampleAnswer: string := MustUse + ExampleRequired + "," + ExampleOthers + CannotUse + ExampleForbidden

  lemma SpaceFreeAppend(x: string, y: string)
    requires forall k | 0 <= k < |x| :: !IsSpace(x[k])
    requires forall k | 0 <= k < |y| :: !IsSpace(y[k])
    ensures forall k | 0 <= k < |x + y| :: !IsSpace((x + y)[k])
  {
  }

  lemma ExampleRequiredWords()
    ensures Words(ExampleRequired) == ["PostgreSQL"]
  {
    var x, y := "Postg", "reSQL";
    assert forall k | 0 <= k < |x| :: !IsSpace(x[k]);
    assert forall k | 0 <= k < |y| :: !IsSpace(y[k]);
    SpaceFreeAppend(x, y);
    assert ExampleRequired == [' '] + (x + y);
    WordsAfterSpace(' ', x + y);
    WordsOfWord(x + y);
  }

  lemma TwoPieces(a: string, b: string, sep: char)
    requires sep !in a && sep !in b
    ensures Split(a + [sep] + b, sep) == [a, b]
  {
    SplitAtSeparator(a, sep, b);
    SplitPlain(b, sep);
  }

  lemma NonBlankTwo(c: char, x: string, y: string)
    requires IsSpace(c) && x != [] && !IsSpace(x[0]) && !IsSpace(x[|x| - 1])
    requires y != [] && !IsSpace(y[0]) && !IsSpace(y[|y| - 1])
    ensures NonBlank([[c] + x, [c] + y]) == [x, y]
  {
    StripPadded(c, x);
    StripPadded(c, y);
    var pieces := [[c] + x, [c] + y];
    assert pieces[1..] == [[c] + y];
    assert pieces[1..][1..] == [];
  }

  lemma ExampleForbiddenPieces()
    ensures NonBlank(Split(ExampleForbidden, ',')) == ["AWS", "JavaScript"]
  {
    var x, y := "AWS", "JavaScript";
    assert ExampleForbidden == ([' '] + x) + [','] + ([' '] + y);
    TwoPieces([' '] + x, [' '] + y, ',');
    NonBlankTwo(' ', x, y);
  }

  /** Only the words before the first comma count as required: "Python" is lost. */
  lemma ToolsExample()
    ensures Parse(Tools, ExampleAnswer) == ToolsAnswer(["PostgreSQL"], ["AWS", "JavaScript"])
  {
    assert 'M' !in ExampleRequired && 'M' !in ExampleOthers;
    assert 'M' !in ExampleForbidden && 'C' !in ExampleForbidden;
    assert ',' !in ExampleRequired;
    ToolsLayout(ExampleRequired, ExampleOthers, ExampleForbidden);
    ExampleRequiredWords();
    ExampleForbiddenPieces();
  }
}
