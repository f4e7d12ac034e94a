/**
 * SkillValidator: seven quality gates run over a SKILL.md text, aggregated
 * into a report. Each regular expression of a gate is modelled by a scanner
 * for that one pattern, with leftmost-match and lazy-group semantics.
 */
module Validators {
  import opened Wrappers
  import opened Text

  const Tick: string := "\U{2713}"
  const AtLeast: string := "\U{2265}"

  /** What a gate's validate returns: (passed, message, details), details holding at most a recommendation. */
  datatype Outcome = Outcome(passed: bool, message: string, recommendation: Option<string>)

  /** The text the pattern matchers of gates 2, 3 and 5 search: the document with "\nZ" appended. */
  function Sentinel(skill: string): string
  {
    skill + "\nZ"
  }

  /** An occurrence inside a prefix is an occurrence in the whole, and back. */
  lemma OccursPrefix(s: string, x: string, p: string, i: nat)
    requires i + |p| <= |s|
    ensures OccursAt(s + x, p, i) <==> OccursAt(s, p, i)
  {
    assert (s + x)[i..i + |p|] == s[i..i + |p|];
  }

  // ---------------------------------------------------------------- gate 1: description

  /** The lazy group of `^---\n(.*?)\n---`: the text from index 4 to the first "\n---" at or after it. */
  function FrontmatterOf(skill: string): (r: Option<string>)
    ensures r.Some? ==> |skill| >= 4 && skill[..4] == "---\n"
    ensures r.Some? ==> 4 + |r.value| <= |skill| && r.value == skill[4..4 + |r.value|]
    ensures r.Some? ==> OccursAt(skill, "\n---", 4 + |r.value|)
    ensures r.Some? ==> forall j | 4 <= j < 4 + |r.value| :: !OccursAt(skill, "\n---", j)
    ensures r.None? ==> !(|skill| >= 4 && skill[..4] == "---\n") || forall j | 4 <= j :: !OccursAt(skill, "\n---", j)
  {
    if |skill| >= 4 && skill[..4] == "---\n" then
      match FindFrom(skill, "\n---", 4)
      case None => None
      case Some(j) => Some(skill[4..j])
    else None
  }

  /** The last position in [lo, hi) whose character is not a newline. */
  function LastNonNewline(s: string, lo: nat, hi: nat): (r: Option<nat>)
    requires lo <= hi <= |s|
    ensures r.Some? ==> lo <= r.value < hi && s[r.value] != '\n'
    ensures r.Some? ==> forall k | r.value < k < hi :: s[k] == '\n'
    ensures r.None? ==> forall k | lo <= k < hi :: s[k] == '\n'
    decreases hi - lo
  {
    if hi == lo then None
    else if s[hi - 1] != '\n' then Some(hi - 1)
    else LastNonNewline(s, lo, hi - 1)
  }

  /** The first position at or after i holding a newline, or |s|. */
  function LineEnd(s: string, i: nat): (k: nat)
    requires i <= |s|
    ensures i <= k <= |s|
    ensures forall j | i <= j < k :: s[j] != '\n'
    ensures k == |s| || s[k] == '\n'
    decreases |s| - i
  {
    if i == |s| || s[i] == '\n' then i else LineEnd(s, i + 1)
  }

  /**
   * The group of `description:\s*(.+?)(?:\n|$)`. After the leftmost "description:",
   * the greedy `\s*` stops at the first non-space character and the group runs to the
   * end of that line. When only whitespace follows, `\s*` gives back characters until
   * the group can take one that is not a newline; with none, there is no match.
   */
  function DescriptionValue(fm: string): (r: Option<string>)
    ensures r.Some? ==> |r.value| >= 1 && '\n' !in r.value
    ensures r.None? <==>
      (!Contains(fm, "description:") ||
       (var i := FindFrom(fm, "description:", 0).value;
        forall k | i + 12 <= k < |fm| :: fm[k] == '\n'))
  {
    match FindFrom(fm, "description:", 0)
    case None => None
    case Some(i) =>
      var e := SkipSpace(fm, i + 12);
      if e < |fm| then
        Some(fm[e..LineEnd(fm, e)])
      else
        match LastNonNewline(fm, i + 12, e)
        case None => None
        case Some(q) => Some(fm[q..q + 1])
  }

  /** The issues DescriptionGate collects for a frontmatter, in order. */
  function DescriptionIssues(fm: string): (issues: seq<string>)
    ensures |issues| <= 2
  {
    (if Contains(fm, "name:") then [] else ["No name field in frontmatter"])
    + (match DescriptionValue(fm)
       case None => ["No description field in frontmatter"]
       case Some(d) => if |d| < 50 then ["Description too short (< 50 chars)"] else [])
  }

  function DescriptionOutcome(skill: string): Outcome
  {
    match FrontmatterOf(skill)
    case None => Outcome(false, "Missing YAML frontmatter", None)
    case Some(fm) =>
      var issues := DescriptionIssues(fm);
      Outcome(issues == [],
              if issues != [] then Join(", ", issues) else Tick + " Clear frontmatter with name and description",
              None)
  }

  /** DescriptionGate.validate, accumulating its issues list. */
  method DescriptionGate(skill: string) returns (out: Outcome)
    ensures out == DescriptionOutcome(skill)
  {
    var issues: seq<string> := [];
    var frontmatter := FrontmatterOf(skill);
    if frontmatter.None? {
      return Outcome(false, "Missing YAML frontmatter", None);
    }
    var fm := frontmatter.value;
    if !Contains(fm, "name:") {
      issues := issues + ["No name field in frontmatter"];
    }
    var desc := DescriptionValue(fm);
    if desc.None? {
      issues := issues + ["No description field in frontmatter"];
    } else {
      if |desc.value| < 50 {
        issues := issues + ["Description too short (< 50 chars)"];
      }
    }
    var passed := |issues| == 0;
    var message := if |issues| > 0 then Join(", ", issues) else Tick + " Clear frontmatter with name and description";
    out := Outcome(passed, message, None);
  }

  /** Gate 1 passes exactly when there is a frontmatter block with a name and a description of 50 or more characters. */
  lemma DescriptionPasses(skill: string)
    ensures DescriptionOutcome(skill).passed <==>
      FrontmatterOf(skill).Some? && Contains(FrontmatterOf(skill).value, "name:")
      && DescriptionValue(FrontmatterOf(skill).value).Some?
      && |DescriptionValue(FrontmatterOf(skill).value).value| >= 50
  {
  }

  // ---------------------------------------------------------------- section bodies (gates 2 and 5)

  const QuickHeadingS: string := "## QuickStart\n\n"
  const QuickHeadingLower: string := "## Quickstart\n\n"
  const EdgeHeading: string := "## Edge Cases\n\n"

  predicate QuickHeadingAt(t: string, h: nat) {
    OccursAt(t, QuickHeadingS, h) || OccursAt(t, QuickHeadingLower, h)
  }

  /** The leftmost position at or after i where `## Quick[Ss]tart\n\n` begins. */
  function FirstQuickHeading(t: string, i: nat): (r: Option<nat>)
    ensures r.Some? ==> i <= r.value && QuickHeadingAt(t, r.value)
    ensures r.Some? ==> forall j | i <= j < r.value :: !QuickHeadingAt(t, j)
    ensures r.None? ==> forall j | i <= j :: !QuickHeadingAt(t, j)
    decreases |t| - i
  {
    if i >= |t| then None
    else if QuickHeadingAt(t, i) then Some(i)
    else FirstQuickHeading(t, i + 1)
  }

  /** The two alternatives that end a lazily matched section body. */
  predicate TerminatorAt(t: string, k: nat) {
    OccursAt(t, "\n## ", k) || OccursAt(t, "\nZ", k)
  }

  function FirstTerminator(t: string, k: nat): (r: Option<nat>)
    ensures r.Some? ==> k <= r.value && TerminatorAt(t, r.value)
    ensures r.Some? ==> forall j | k <= j < r.value :: !TerminatorAt(t, j)
    ensures r.None? ==> forall j | k <= j :: !TerminatorAt(t, j)
    decreases |t| - k
  {
    if k >= |t| then None
    else if TerminatorAt(t, k) then Some(k)
    else FirstTerminator(t, k + 1)
  }

  /** The lazy body after a 15-character heading at h: up to the first terminator. */
  function BodyAfter(t: string, h: nat): (r: Option<string>)
    ensures r.Some? ==> h + 15 + |r.value| <= |t| && r.value == t[h + 15..h + 15 + |r.value|]
    ensures r.Some? ==> TerminatorAt(t, h + 15 + |r.value|)
    ensures r.Some? ==> forall j | h + 15 <= j < h + 15 + |r.value| :: !TerminatorAt(t, j)
  {
    match FirstTerminator(t, h + 15)
    case None => None
    case Some(k) => if k <= |t| then Some(t[h + 15..k]) else None
  }

  /** Behind a heading that ends inside the document, the appended "\nZ" always ends the body. */
  lemma BodyFound(skill: string, h: nat)
    ensures BodyAfter(Sentinel(skill), h).Some? <==> h + 15 <= |skill|
  {
    var t := Sentinel(skill);
    if h + 15 <= |skill| {
      assert OccursAt(t, "\nZ", |skill|) by { assert t[|skill|..|skill| + 2] == "\nZ"; }
      assert TerminatorAt(t, |skill|);
    } else {
      forall j | h + 15 <= j ensures !TerminatorAt(t, j) {
        assert j > |skill|;
      }
    }
  }

  /** A "### " sub-heading does not end a captured body: only "\n## " and the sentinel do. */
  lemma SubHeadingContinues(t: string, k: nat)
    requires OccursAt(t, "\n### ", k)
    ensures !TerminatorAt(t, k)
  {
    assert t[k..k + 5][1] == t[k + 1] && t[k..k + 5][3] == t[k + 3];
  }

  /** The body the quickstart pattern captures, if it matches. */
  function QuickBody(skill: string): Option<string>
  {
    var t := Sentinel(skill);
    match FirstQuickHeading(t, 0)
    case None => None
    case Some(h) => BodyAfter(t, h)
  }

  /** The body the edge-case pattern captures, if it matches. */
  function EdgeBody(skill: string): Option<string>
  {
    var t := Sentinel(skill);
    match FindFrom(t, EdgeHeading, 0)
    case None => None
    case Some(h) => BodyAfter(t, h)
  }

  /** A document with no "## QuickStart"/"## Quickstart" heading yields no quickstart body. */
  lemma QuickBodyNone(skill: string)
    requires !Contains(skill, "## QuickS") && !Contains(skill, "## Quicks")
    ensures QuickBody(skill).None?
  {
    var t := Sentinel(skill);
    forall j | 0 <= j ensures !QuickHeadingAt(t, j) {
      if j + 15 <= |t| {
        assert j + 9 <= |skill|;
        OccursPrefix(skill, "\nZ", "## QuickS", j);
        OccursPrefix(skill, "\nZ", "## Quicks", j);
        assert !OccursAt(skill, "## QuickS", j) && !OccursAt(skill, "## Quicks", j);
        assert t[j..j + 9] == skill[j..j + 9];
        assert QuickHeadingS[..9] == "## QuickS" && QuickHeadingLower[..9] == "## Quicks";
        assert t[j..j + 15][..9] == t[j..j + 9];
      }
    }
  }

  // ---------------------------------------------------------------- gate 2: quickstart

  function QuickstartOutcome(skill: string): (o: Outcome)
    ensures o.passed <==>
      (Contains(skill, "## Quick Start") || Contains(skill, "## Quickstart"))
      && QuickBody(skill).Some? && |NonBlank(Split(QuickBody(skill).value, '\n'))| <= 5
    ensures (Contains(skill, "## Quick Start") || Contains(skill, "## Quickstart")) && QuickBody(skill).None?
      ==> o == Outcome(false, "Quickstart section empty", None)
  {
    if !Contains(skill, "## Quick Start") && !Contains(skill, "## Quickstart") then
      Outcome(false, "No Quickstart section found", None)
    else
      match QuickBody(skill)
      case None => Outcome(false, "Quickstart section empty", None)
      case Some(body) =>
        var lines := NonBlank(Split(body, '\n'));
        if |lines| > 5 then
          Outcome(false, "Quickstart too long (" + NatToString(|lines|) + " items, max 3-4)",
                  Some("Simplify to 3 clear steps"))
        else Outcome(true, Tick + " Concise 30-second quickstart", None)
  }

  // ---------------------------------------------------------------- gate 3: templates

  /** Whether `## Templates.*?\n\n(.*?)(?:\n## |\nZ)` matches the sentinel text. */
  function TemplatesMatch(skill: string): bool
  {
    var t := Sentinel(skill);
    match FindFrom(t, "## Templates", 0)
    case None => false
    case Some(p) =>
      match FindFrom(t, "\n\n", p + 12)
      case None => false
      case Some(q) => FirstTerminator(t, q + 2).Some?
  }

  /** The templates pattern matches exactly when a blank line follows a "## Templates" heading in the document. */
  lemma TemplatesMatchIff(skill: string)
    ensures TemplatesMatch(skill) <==>
      exists p, q | OccursAt(skill, "## Templates", p) && OccursAt(skill, "\n\n", q) :: p + 12 <= q
  {
    var t := Sentinel(skill);
    assert OccursAt(t, "\nZ", |skill|) by { assert t[|skill|..|skill| + 2] == "\nZ"; }
    if TemplatesMatch(skill) {
      var p := FindFrom(t, "## Templates", 0).value;
      var q := FindFrom(t, "\n\n", p + 12).value;
      var k := FirstTerminator(t, q + 2).value;
      assert k <= |skill| by {
        assert OccursAt(t, "\n## ", k) || OccursAt(t, "\nZ", k);
      }
      OccursPrefix(skill, "\nZ", "## Templates", p);
      OccursPrefix(skill, "\nZ", "\n\n", q);
      assert OccursAt(skill, "## Templates", p) && OccursAt(skill, "\n\n", q) && p + 12 <= q;
    }
    if exists p, q | OccursAt(skill, "## Templates", p) && OccursAt(skill, "\n\n", q) :: p + 12 <= q {
      var p0: nat, q0: nat :| OccursAt(skill, "## Templates", p0) && OccursAt(skill, "\n\n", q0) && p0 + 12 <= q0;
      OccursPrefix(skill, "\nZ", "## Templates", p0);
      OccursPrefix(skill, "\nZ", "\n\n", q0);
      var p := FindFrom(t, "## Templates", 0).value;
      var q := FindFrom(t, "\n\n", p + 12).value;
      assert q <= q0;
      assert FirstTerminator(t, q + 2).Some? by {
        assert TerminatorAt(t, |skill|) && q + 2 <= |skill|;
      }
    }
  }

  function TemplatesOutcome(skill: string): (o: Outcome)
    ensures o.passed <==> TemplatesMatch(skill) && Count(skill, "```") >= 2
  {
    if !TemplatesMatch(skill) then Outcome(false, "No Templates section found", None)
    else
      var blocks := Count(skill, "```");
      if blocks < 2 then
        Outcome(false, "Found " + NatToString(blocks) + " code examples, need " + AtLeast + "2",
                Some("Add template examples and code samples"))
      else Outcome(true, Tick + " " + NatToString(blocks) + " template examples found", None)
  }

  // ---------------------------------------------------------------- gate 4: failure modes

  predicate MarkerAt(s: string, i: nat) {
    OccursAt(s, "**Symptom:", i) || OccursAt(s, "**Failure:", i) || OccursAt(s, "**Issue:", i)
  }

  /** The number of non-overlapping matches of `\*\*(?:Symptom|Failure|Issue):` from i on. */
  function MarkersFrom(s: string, i: nat): nat
    decreases |s| - i
  {
    if i >= |s| then 0
    else if MarkerAt(s, i) then 1 + MarkersFrom(s, i + (if OccursAt(s, "**Issue:", i) then 8 else 10))
    else MarkersFrom(s, i + 1)
  }

  function MarkerCount(s: string): nat
  {
    MarkersFrom(s, 0)
  }

  /** The count is zero exactly when no marker occurs. */
  lemma {:induction false} MarkersZero(s: string, i: nat)
    ensures MarkersFrom(s, i) == 0 <==> forall j | i <= j :: !MarkerAt(s, j)
    decreases |s| - i
  {
    if i < |s| {
      if !MarkerAt(s, i) {
        MarkersZero(s, i + 1);
        forall j | i <= j ensures MarkersFrom(s, i + 1) == 0 ==> !MarkerAt(s, j) {
          if j > i {
            assert i + 1 <= j;
          }
        }
      }
    } else {
      forall j | i <= j ensures !MarkerAt(s, j) {
        assert j >= |s|;
      }
    }
  }

  function FailureModesOutcome(skill: string): (o: Outcome)
    ensures o.passed <==>
      Contains(skill, "## Failure") && MarkerCount(skill) >= 5
      && (Contains(skill, "**Fix") || Contains(Lower(skill), "fix:"))
  {
    if !Contains(skill, "## Failure") then Outcome(false, "No Failure Modes section found", None)
    else
      var failures := MarkerCount(skill);
      if failures < 5 then
        Outcome(false, "Only " + NatToString(failures) + " failure modes found, need " + AtLeast + "5",
                Some("Add more comprehensive failure mode" + " documentation"))
      else if !Contains(skill, "**Fix") && !Contains(Lower(skill), "fix:") then
        Outcome(false, "Failure modes lack fix/solution" + " descriptions", None)
      else Outcome(true, Tick + " " + NatToString(failures) + "+ failure modes with solutions", None)
  }

  // ---------------------------------------------------------------- gate 5: edge cases

  /** A match of `^-\s+` in multi-line mode: a line starting with '-' and then whitespace. */
  predicate DashAt(s: string, i: nat) {
    i + 1 < |s| && (i == 0 || s[i - 1] == '\n') && s[i] == '-' && IsSpace(s[i + 1])
  }

  function DashesFrom(s: string, i: nat): (n: nat)
    ensures n <= |s| - i || i > |s|
    decreases |s| - i
  {
    if i >= |s| then 0 else (if DashAt(s, i) then 1 else 0) + DashesFrom(s, i + 1)
  }

  function DashCount(s: string): nat
  {
    DashesFrom(s, 0)
  }

  function EdgeCasesOutcome(skill: string): (o: Outcome)
    ensures o.passed <==> Contains(skill, "## Edge") && EdgeBody(skill).Some? && DashCount(EdgeBody(skill).value) >= 3
  {
    if !Contains(skill, "## Edge") then Outcome(false, "No Edge Cases section found", None)
    else
      match EdgeBody(skill)
      case None => Outcome(false, "Edge Cases section empty", None)
      case Some(body) =>
        var n := DashCount(body);
        if n < 3 then
          Outcome(false, "Only " + NatToString(n) + " edge cases found, need " + AtLeast + "3",
                  Some("Document boundary conditions" + " and unusual scenarios"))
        else Outcome(true, Tick + " " + NatToString(n) + " edge cases documented", None)
  }

  // ---------------------------------------------------------------- gates 6 and 7

  function BrittlenessOutcome(skill: string): (o: Outcome)
    ensures o.passed <==> Contains(skill, "scripts/") || Contains(skill, "## Guardrails")
  {
    if Contains(skill, "scripts/") then Outcome(true, Tick + " Scripts provided for brittle operations", None)
    else if Contains(skill, "## Guardrails") then Outcome(true, Tick + " Guardrails clearly documented", None)
    else Outcome(false, "No explicit guardrails or scripts" + " for brittle tasks",
                 Some("Add scripts or strict guardrails" + " for error-prone steps"))
  }

  function SizeOutcome(skill: string): (o: Outcome)
    ensures o.passed <==> LineCount(skill) <= 500
    ensures LineCount(skill) > 600 ==> o.recommendation == Some("Move detailed content" + " to references/ directory")
    ensures 500 < LineCount(skill) <= 600 ==> o.recommendation == Some("Consider moving some content" + " to references/")
  {
    var lines := LineCount(skill);
    if lines > 600 then
      Outcome(false, "SKILL.md is " + NatToString(lines) + " lines, should be <500",
              Some("Move detailed content" + " to references/ directory"))
    else if lines > 500 then
      Outcome(false, "SKILL.md is " + NatToString(lines) + " lines, aim for <500",
              Some("Consider moving some content" + " to references/"))
    else Outcome(true, Tick + " Concise at " + NatToString(lines) + " lines", None)
  }

  // ---------------------------------------------------------------- the gate list and the report

  datatype Gate = DescriptionClarity | Quickstart | Templates | FailureModes | EdgeCases | Brittleness | FileSize

  const AllGates: seq<Gate> := [DescriptionClarity, Quickstart, Templates, FailureModes, EdgeCases, Brittleness, FileSize]

  function GateName(g: Gate): string
  {
    match g
    case DescriptionClarity => "Description Clarity"
    case Quickstart => "Quickstart (30s)"
    case Templates => "Templates (" + AtLeast + "2)"
    case FailureModes => "Failure Modes (" + AtLeast + "5)"
    case EdgeCases => "Edge Cases (" + AtLeast + "3)"
    case Brittleness => "Brittle Tasks Scripted"
    case FileSize => "File Size (<500 lines)"
  }

  /** The five content gates are mandatory and required; the last two are recommended only. */
  function GateCategory(g: Gate): (c: string)
    ensures c == "mandatory" <==> g !in {Brittleness, FileSize}
  {
    if g == Brittleness || g == FileSize then "recommended" else "mandatory"
  }

  predicate GateRequired(g: Gate) {
    g != Brittleness && g != FileSize
  }

  function Evaluate(g: Gate, skill: string): Outcome
  {
    match g
    case DescriptionClarity => DescriptionOutcome(skill)
    case Quickstart => QuickstartOutcome(skill)
    case Templates => TemplatesOutcome(skill)
    case FailureModes => FailureModesOutcome(skill)
    case EdgeCases => EdgeCasesOutcome(skill)
    case Brittleness => BrittlenessOutcome(skill)
    case FileSize => SizeOutcome(skill)
  }

  datatype GateResult = GateResult(name: string, category: string, passed: bool, message: string, required: bool)

  datatype Report = Report(
    passed: bool,
    gates: seq<GateResult>,
    errors: seq<string>,
    warnings: seq<string>,
    recommendations: seq<string>)

  function ResultOf(g: Gate, o: Outcome): GateResult
  {
    GateResult(GateName(g), GateCategory(g), o.passed, o.message, GateRequired(g))
  }

  /** The report after running the gates in order; each step is one iteration of the source's loop. */
  function ReportFrom(gates: seq<Gate>, eval: Gate -> Outcome): (r: Report)
    ensures |r.gates| == |gates|
  {
    if gates == [] then Report(true, [], [], [], [])
    else
      var r := ReportFrom(gates[..|gates| - 1], eval);
      var g := gates[|gates| - 1];
      var o := eval(g);
      Report(r.passed && (o.passed || !GateRequired(g)),
             r.gates + [ResultOf(g, o)],
             r.errors + (if !o.passed && GateRequired(g) then [o.message] else []),
             r.warnings + (if !o.passed && !GateRequired(g) then [o.message] else []),
             r.recommendations + (if o.recommendation.Some? then [o.recommendation.value] else []))
  }

  /** The gate outcomes for one document. */
  function Outcomes(skill: string): Gate -> Outcome
  {
    g => Evaluate(g, skill)
  }

  function ReportOf(skill: string): Report
  {
    ReportFrom(AllGates, Outcomes(skill))
  }

  /** Failed required gates, failed optional gates and recommendations, each in gate order. */
  function RequiredFailures(gates: seq<Gate>, eval: Gate -> Outcome): seq<string>
  {
    if gates == [] then []
    else
      var o := eval(gates[0]);
      (if !o.passed && GateRequired(gates[0]) then [o.message] else []) + RequiredFailures(gates[1..], eval)
  }

  function OptionalFailures(gates: seq<Gate>, eval: Gate -> Outcome): seq<string>
  {
    if gates == [] then []
    else
      var o := eval(gates[0]);
      (if !o.passed && !GateRequired(gates[0]) then [o.message] else []) + OptionalFailures(gates[1..], eval)
  }

  function Recommendations(gates: seq<Gate>, eval: Gate -> Outcome): seq<string>
  {
    if gates == [] then []
    else
      var o := eval(gates[0]);
      (if o.recommendation.Some? then [o.recommendation.value] else []) + Recommendations(gates[1..], eval)
  }

  lemma {:induction false} RequiredFailuresSnoc(gates: seq<Gate>, g: Gate, eval: Gate -> Outcome)
    ensures RequiredFailures(gates + [g], eval)
         == RequiredFailures(gates, eval)
            + (if !eval(g).passed && GateRequired(g) then [eval(g).message] else [])
    decreases |gates|
  {
    if gates != [] {
      assert (gates + [g])[1..] == gates[1..] + [g];
      RequiredFailuresSnoc(gates[1..], g, eval);
    }
  }

  lemma {:induction false} OptionalFailuresSnoc(gates: seq<Gate>, g: Gate, eval: Gate -> Outcome)
    ensures OptionalFailures(gates + [g], eval)
         == OptionalFailures(gates, eval)
            + (if !eval(g).passed && !GateRequired(g) then [eval(g).message] else [])
    decreases |gates|
  {
    if gates != [] {
      assert (gates + [g])[1..] == gates[1..] + [g];
      OptionalFailuresSnoc(gates[1..], g, eval);
    }
  }

  lemma {:induction false} RecommendationsSnoc(gates: seq<Gate>, g: Gate, eval: Gate -> Outcome)
    ensures Recommendations(gates + [g], eval)
         == Recommendations(gates, eval)
            + (if eval(g).recommendation.Some? then [eval(g).recommendation.value] else [])
    decreases |gates|
  {
    if gates != [] {
      assert (gates + [g])[1..] == gates[1..] + [g];
      RecommendationsSnoc(gates[1..], g, eval);
    }
  }

  /** The report lists one entry per gate, in gate order. */
  lemma {:induction false} ReportGates(gates: seq<Gate>, eval: Gate -> Outcome)
    ensures forall k | 0 <= k < |gates| :: ReportFrom(gates, eval).gates[k] == ResultOf(gates[k], eval(gates[k]))
    decreases |gates|
  {
    if gates != [] {
      var init := gates[..|gates| - 1];
      ReportGates(init, eval);
      assert forall k | 0 <= k < |init| :: init[k] == gates[k];
    }
  }

  /** The report passes exactly when every required gate passes. */
  lemma {:induction false} ReportPassed(gates: seq<Gate>, eval: Gate -> Outcome)
    ensures ReportFrom(gates, eval).passed <==>
      forall k | 0 <= k < |gates| :: GateRequired(gates[k]) ==> eval(gates[k]).passed
    decreases |gates|
  {
    if gates != [] {
      var init := gates[..|gates| - 1];
      ReportPassed(init, eval);
      assert forall k | 0 <= k < |init| :: init[k] == gates[k];
    }
  }

  /** The report passes exactly when it has no errors. */
  lemma {:induction false} ReportPassedNoErrors(gates: seq<Gate>, eval: Gate -> Outcome)
    ensures ReportFrom(gates, eval).passed <==> ReportFrom(gates, eval).errors == []
    decreases |gates|
  {
    if gates != [] {
      ReportPassedNoErrors(gates[..|gates| - 1], eval);
    }
  }

  /** Errors, warnings and recommendations are those of the gates, in gate order. */
  lemma {:induction false} ReportLists(gates: seq<Gate>, eval: Gate -> Outcome)
    ensures ReportFrom(gates, eval).errors == RequiredFailures(gates, eval)
    ensures ReportFrom(gates, eval).warnings == OptionalFailures(gates, eval)
    ensures ReportFrom(gates, eval).recommendations == Recommendations(gates, eval)
    decreases |gates|
  {
    if gates != [] {
      var init := gates[..|gates| - 1];
      var g := gates[|gates| - 1];
      ReportLists(init, eval);
      assert init + [g] == gates;
      RequiredFailuresSnoc(init, g, eval);
      OptionalFailuresSnoc(init, g, eval);
      RecommendationsSnoc(init, g, eval);
    }
  }

  /** The fixed gate list yields seven entries, named in order. */
  lemma ReportOfShape(skill: string)
    ensures |ReportOf(skill).gates| == 7
    ensures forall k | 0 <= k < 7 :: ReportOf(skill).gates[k].name == GateName(AllGates[k])
  {
    ReportGates(AllGates, Outcomes(skill));
  }

  /** A document passes exactly when every required gate passes on it. */
  lemma ReportOfPassed(skill: string)
    ensures ReportOf(skill).passed <==> forall g: Gate | GateRequired(g) :: Outcomes(skill)(g).passed
  {
    PassedOfAll(Outcomes(skill));
    RequiredGates(Outcomes(skill));
  }

  /** The same, gate by gate: the five content gates decide, the brittleness and size checks do not. */
  lemma ReportOfContent(skill: string)
    ensures ReportOf(skill).passed <==>
      DescriptionOutcome(skill).passed && QuickstartOutcome(skill).passed && TemplatesOutcome(skill).passed
      && FailureModesOutcome(skill).passed && EdgeCasesOutcome(skill).passed
  {
    PassedOfAll(Outcomes(skill));
    OutcomesAt(skill);
  }

  lemma OutcomesAt(skill: string)
    ensures Outcomes(skill)(DescriptionClarity) == DescriptionOutcome(skill)
    ensures Outcomes(skill)(Quickstart) == QuickstartOutcome(skill)
    ensures Outcomes(skill)(Templates) == TemplatesOutcome(skill)
    ensures Outcomes(skill)(FailureModes) == FailureModesOutcome(skill)
    ensures Outcomes(skill)(EdgeCases) == EdgeCasesOutcome(skill)
  {
  }

  /** The required gates are the five content gates. */
  lemma RequiredGates(eval: Gate -> Outcome)
    ensures (forall g: Gate | GateRequired(g) :: eval(g).passed) <==>
      eval(DescriptionClarity).passed && eval(Quickstart).passed && eval(Templates).passed
      && eval(FailureModes).passed && eval(EdgeCases).passed
  {
    if eval(DescriptionClarity).passed && eval(Quickstart).passed && eval(Templates).passed
       && eval(FailureModes).passed && eval(EdgeCases).passed
    {
      forall g: Gate | GateRequired(g) ensures eval(g).passed {
        if g == DescriptionClarity || g == Quickstart || g == Templates {
        } else {
          assert g == FailureModes || g == EdgeCases;
        }
      }
    }
  }

  lemma PassedOfAll(eval: Gate -> Outcome)
    ensures ReportFrom(AllGates, eval).passed <==>
      eval(DescriptionClarity).passed && eval(Quickstart).passed && eval(Templates).passed
      && eval(FailureModes).passed && eval(EdgeCases).passed
  {
    ReportPassed(AllGates, eval);
    assert AllGates[0] == DescriptionClarity && AllGates[1] == Quickstart && AllGates[2] == Templates;
    assert AllGates[3] == FailureModes && AllGates[4] == EdgeCases;
    assert !GateRequired(AllGates[5]) && !GateRequired(AllGates[6]);
  }

  /** SkillValidator: holds the gate list set up by its constructor. */
  class SkillValidator {
    var gates: seq<Gate>

    constructor ()
      ensures gates == AllGates
    {
      gates := AllGates;
    }

    /** validate_skill: runs every gate in order and folds its outcome into the report. */
    method ValidateSkill(skill: string) returns (report: Report)
      ensures report == ReportFrom(gates, Outcomes(skill))
    {
      report := Report(true, [], [], [], []);
      for i := 0 to |gates|
        invariant report == ReportFrom(gates[..i], Outcomes(skill))
      {
        var gate := gates[i];
        var outcome: Outcome;
        if gate == DescriptionClarity {
          outcome := DescriptionGate(skill);
        } else {
          outcome := Evaluate(gate, skill);
        }
        ReportStep(gates, i, Outcomes(skill));
        report := Record(report, gate, outcome);
      }
      assert gates[..|gates|] == gates;
    }
  }

  lemma ReportStep(gates: seq<Gate>, i: nat, eval: Gate -> Outcome)
    requires i < |gates|
    ensures var r := ReportFrom(gates[..i], eval);
            var g := gates[i];
            var o := eval(g);
            ReportFrom(gates[..i + 1], eval)
            == Report(r.passed && (o.passed || !GateRequired(g)),
                      r.gates + [ResultOf(g, o)],
                      r.errors + (if !o.passed && GateRequired(g) then [o.message] else []),
                      r.warnings + (if !o.passed && !GateRequired(g) then [o.message] else []),
                      r.recommendations + (if o.recommendation.Some? then [o.recommendation.value] else []))
  {
    assert gates[..i + 1][..i] == gates[..i];
  }

  /** One iteration of validate_skill's loop body. */
  method Record(before: Report, gate: Gate, outcome: Outcome) returns (after: Report)
    ensures after == Report(before.passed && (outcome.passed || !GateRequired(gate)),
                            before.gates + [ResultOf(gate, outcome)],
                            before.errors + (if !outcome.passed && GateRequired(gate) then [outcome.message] else []),
                            before.warnings + (if !outcome.passed && !GateRequired(gate) then [outcome.message] else []),
                            before.recommendations
                              + (if outcome.recommendation.Some? then [outcome.recommendation.value] else []))
  {
    after := before.(gates := before.gates + [ResultOf(gate, outcome)]);
    if !outcome.passed {
      if GateRequired(gate) {
        after := after.(errors := after.errors + [outcome.message], passed := false);
      } else {
        after := after.(warnings := after.warnings + [outcome.message]);
      }
    }
    if outcome.recommendation.Some? {
      after := after.(recommendations := after.recommendations + [outcome.recommendation.value]);
    }
  }
}
