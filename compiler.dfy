/**
 * SkillCompiler: renders a scope card, a canon and an overlay into a SKILL.md
 * document made of a frontmatter block and nine sections in a fixed order,
 * with runs of three or more newlines collapsed to two.
 *
 * Each section is specified by a function; the sections the source grows in a
 * loop are built by methods proved equal to those functions.
 */
module Compiler {
  import opened Wrappers
  import opened Text
  import opened Records

  // ---------------------------------------------------------------- shared shapes

  /** Each item prefixed with "- ". The ensures spell out the body as an unfolding aid for the layout proofs. */
  function Bullets(xs: seq<string>): (r: seq<string>)
    ensures |r| == |xs|
    ensures forall k | 0 <= k < |xs| :: r[k] == "- " + xs[k]
  {
    seq(|xs|, k requires 0 <= k < |xs| => "- " + xs[k])
  }

  /** The lines, each followed by a newline: what a loop of `section += line + "\n"` builds. */
  function Lines(ls: seq<string>): string
  {
    if ls == [] then "" else Lines(ls[..|ls| - 1]) + ls[|ls| - 1] + "\n"
  }

  lemma LinesSnoc(ls: seq<string>, x: string)
    ensures Lines(ls + [x]) == Lines(ls) + x + "\n"
  {
    assert (ls + [x])[..|ls|] == ls;
  }

  // ---------------------------------------------------------------- frontmatter

  const StopWords: set<string> := {"a", "the", "for", "skill", "create", "make", "build"}

  predicate KeepWord(w: string) {
    w !in StopWords && IsAlnum(w)
  }

  /**
   * The words that survive the filter, in their original order: only kept words
   * of the input. KeptWordsComplete and KeptWordsInOrder state the rest.
   */
  function KeptWords(ws: seq<string>): (r: seq<string>)
    ensures |r| <= |ws|
    ensures forall k | 0 <= k < |r| :: KeepWord(r[k]) && r[k] in ws
  {
    if ws == [] then []
    else (if KeepWord(ws[0]) then [ws[0]] else []) + KeptWords(ws[1..])
  }

  /** Every kept word of the input survives, exactly as often as it occurs. */
  lemma {:induction false} KeptWordsComplete(ws: seq<string>)
    ensures forall w | w in ws && KeepWord(w) :: w in KeptWords(ws)
    ensures forall w | KeepWord(w) :: multiset(KeptWords(ws))[w] == multiset(ws)[w]
  {
    if ws != [] {
      KeptWordsComplete(ws[1..]);
      assert ws == [ws[0]] + ws[1..];
    }
  }

  /** The kept words come in the input's order. */
  lemma {:induction false} KeptWordsInOrder(ws: seq<string>)
    ensures Subsequence(KeptWords(ws), ws)
  {
    if ws != [] {
      KeptWordsInOrder(ws[1..]);
      var rest := KeptWords(ws[1..]);
      assert ([ws[0]] + rest)[1..] == rest && [] + rest == rest;
    }
  }

  /** The tokens of the skill name: the first three kept words of the lower-cased goal. */
  function NameTokens(goal: string): (r: seq<string>)
    ensures |r| <= 3
    ensures forall k | 0 <= k < |r| :: IsAlnum(r[k]) && r[k] !in StopWords
    ensures forall k, i | 0 <= k < |r| && 0 <= i < |r[k]| :: !IsUpper(r[k][i])
  {
    var ws := Words(Lower(goal));
    var kept := KeptWords(ws);
    assert forall k | 0 <= k < |kept| :: kept[k] in ws;
    assert forall k, i | 0 <= k < |kept| && 0 <= i < |kept[k]| :: !IsUpper(kept[k][i]) by {
      forall k, i | 0 <= k < |kept| && 0 <= i < |kept[k]| ensures !IsUpper(kept[k][i]) {
        WordsOfLower(Lower(goal), kept[k], i);
      }
    }
    Take(kept, 3)
  }

  /** Every letter in a word of a lower-cased text is lower-case. */
  lemma {:induction false} WordsOfLower(s: string, w: string, i: nat)
    requires forall j | 0 <= j < |s| :: !IsUpper(s[j])
    requires w in Words(s) && i < |w|
    ensures !IsUpper(w[i])
    decreases |s|
  {
    if s != [] {
      if IsSpace(s[0]) {
        WordsOfLower(s[1..], w, i);
      } else {
        var n := WordLen(s);
        if w == s[..n] {
          assert w[i] == s[i];
        } else {
          WordsOfLower(s[n..], w, i);
        }
      }
    }
  }

  /** _sanitize_skill_name: up to three kept words joined with "-". */
  function SanitizeSkillName(goal: string): string
  {
    Join("-", NameTokens(goal))
  }

  /** The untruncated short description. */
  function DescriptionLong(card: ScopeCard, overlay: Overlay): string
  {
    card.goal + ". " + "Triggers: " + Join(", ", Take(card.triggerWords, 3)) + "."
    + (if overlay.requiredTools != [] then " Uses: " + Join(", ", Take(overlay.requiredTools, 2)) + "." else "")
  }

  /**
   * _compile_description_short: the long description cut to 200 characters. The ensures
   * are an unfolding aid; what the description means is stated by the lemmas about it.
   */
  function DescriptionShort(card: ScopeCard, overlay: Overlay): (d: string)
    ensures |d| <= 200 && |d| <= |DescriptionLong(card, overlay)| && d == DescriptionLong(card, overlay)[..|d|]
    ensures |DescriptionLong(card, overlay)| <= 200 ==> d == DescriptionLong(card, overlay)
    ensures |DescriptionLong(card, overlay)| > 200 ==> |d| == 200
  {
    var full := DescriptionLong(card, overlay);
    full[..Min(200, |full|)]
  }

  /** _compile_frontmatter. The ensures spells out the body as an unfolding aid. */
  function Frontmatter(card: ScopeCard, overlay: Overlay): (r: string)
    ensures r == "---\nname: " + SanitizeSkillName(card.goal) + "\ndescription: " + DescriptionShort(card, overlay) + "\n---\n"
  {
    "---\nname: " + SanitizeSkillName(card.goal) + "\ndescription: " + DescriptionShort(card, overlay) + "\n---\n"
  }

  // ---------------------------------------------------------------- description and when-to-use

  /**
   * The Overview section. Each list is introduced by "- " and its items are
   * themselves prefixed with "- ", so the first item of each reads "- - item".
   */
  function DescriptionSection(card: ScopeCard): string
  {
    "## Overview\n\n" + "**Purpose**: " + card.goal + "\n\n"
    + "**What this skill does**:\n- " + Join("\n", Bullets(Take(card.mustCover, 3))) + "\n\n"
    + "**When to use this**:\n- " + Join("\n", Bullets(Take(card.triggerWords, 3))) + "\n\n"
    + "**What this skill does NOT do**:\n- " + Join("\n", Bullets(Take(card.mustNotCover, 2))) + "\n"
  }

  const SpeedPriority: string := "Speed is most important" + " - get fast results even if imperfect"
  const AccuracyPriority: string := "Accuracy is critical" + " - must be verified and precise"
  const ExplainabilityPriority: string := "Explainability matters" + " - must be transparent and clear"
  const ConsistencyPriority: string := "Consistency is key" + " - must produce uniform results"

  /** The text shown for a priority; an unknown key reads "Balanced". */
  function PriorityText(priority: string): (r: string)
    ensures r != ""
  {
    if priority == "speed" then SpeedPriority
    else if priority == "accuracy" then AccuracyPriority
    else if priority == "explainability" then ExplainabilityPriority
    else if priority == "consistency" then ConsistencyPriority
    else "Balanced"
  }

  function WhenToUseSection(overlay: Overlay): string
  {
    "## When to Use This Skill\n\n"
    + (if overlay.requiredTools != [] then "**Required Tools**: " + Join(", ", overlay.requiredTools) + "\n\n" else "")
    + (if overlay.forbiddenTools != [] then "**Cannot Use**: " + Join(", ", overlay.forbiddenTools) + "\n\n" else "")
    + (if overlay.priority != "" then "**Priority**: " + PriorityText(overlay.priority) + "\n\n" else "")
  }

  // ---------------------------------------------------------------- loop steps

  lemma Assoc(a: string, b: string, c: string)
    ensures a + b + c == a + (b + c)
  {
  }

  /** One more line appended to a text that already holds the first i lines. */
  lemma AppendLine(h: string, xs: seq<string>, i: nat)
    requires i < |xs|
    ensures h + Lines(xs[..i]) + xs[i] + "\n" == h + Lines(xs[..i + 1])
  {
    assert xs[..i + 1][..i] == xs[..i];
  }

  /** One more bullet appended to a text that already holds the first i bullets. */
  lemma BulletStep(h: string, section: string, xs: seq<string>, i: nat)
    requires i < |xs| && section == h + Lines(Bullets(xs)[..i])
    ensures section + "- " + xs[i] + "\n" == h + Lines(Bullets(xs)[..i + 1])
  {
    AppendLine(h, Bullets(xs), i);
  }

  // ---------------------------------------------------------------- quick start

  /** The canon's first three quickstart lines, or three placeholder steps when it is empty. */
  function QuickstartSteps(canon: Canon): (steps: seq<string>)
    ensures canon.quickstart == "" ==> steps == ["Step 1: Start", "Step 2: Configure", "Step 3: Execute"]
    ensures canon.quickstart != "" ==> |steps| == Min(3, LineCount(canon.quickstart))
    ensures canon.quickstart != "" ==> forall k | 0 <= k < |steps| :: steps[k] == Split(canon.quickstart, '\n')[k]
  {
    if canon.quickstart != "" then Take(Split(canon.quickstart, '\n'), 3)
    else ["Step 1: Start", "Step 2: Configure", "Step 3: Execute"]
  }

  /** Steps numbered from 1, each stripped. The ensures spell out the body as an unfolding aid. */
  function Numbered(steps: seq<string>): (r: seq<string>)
    ensures |r| == |steps|
    ensures forall k | 0 <= k < |steps| :: r[k] == NatToString(k + 1) + ". " + Strip(steps[k])
  {
    seq(|steps|, k requires 0 <= k < |steps| => NatToString(k + 1) + ". " + Strip(steps[k]))
  }

  const QuickstartHeading: string := "## Quick Start\n\n"

  function QuickstartSection(canon: Canon): string
  {
    QuickstartHeading + Lines(Numbered(QuickstartSteps(canon))) + "\n"
  }

  lemma StepLine(section: string, steps: seq<string>, i: nat)
    requires i < |steps| && section == QuickstartHeading + Lines(Numbered(steps)[..i])
    ensures section + NatToString(i + 1) + ". " + Strip(steps[i]) + "\n"
         == QuickstartHeading + Lines(Numbered(steps)[..i + 1])
  {
    AppendLine(QuickstartHeading, Numbered(steps), i);
  }

  method CompileQuickstart(canon: Canon) returns (section: string)
    ensures section == QuickstartSection(canon)
  {
    var steps := QuickstartSteps(canon);
    section := QuickstartHeading;
    for i := 0 to |steps|
      invariant section == QuickstartHeading + Lines(Numbered(steps)[..i])
    {
      StepLine(section, steps, i);
      section := section + NatToString(i + 1) + ". " + Strip(steps[i]) + "\n";
    }
    assert Numbered(steps)[..|steps|] == Numbered(steps);
    section := section + "\n";
  }

  // ---------------------------------------------------------------- workflow

  const WorkflowHeading: string := "## Workflow\n\n"
  const DecisionHeading: string := "### Decision Points\n\n"
  const DefaultWorkflow: string :=
    "### Default Workflow\n\n" + "1. Analyze input\n" + "2. Choose approach based on context\n" + "3. Execute\n"
  const FormatHeading: string := "\n### Required Output Format\n\n"

  function DecisionLines(canon: Canon): string
  {
    if canon.decisionPoints != [] then DecisionHeading + Lines(Bullets(Take(canon.decisionPoints, 5)))
    else DefaultWorkflow
  }

  /** The output-format dictionary rendered as "- **key**: value" lines, keys in insertion order. */
  function FormatLines(f: OutputFormat): seq<string>
  {
    ["- **" + "description" + "**: " + f.description, "- **" + "example" + "**: " + f.example]
  }

  function FormatBlock(overlay: Overlay): string
  {
    if overlay.outputFormat.Some? then FormatHeading + Lines(FormatLines(overlay.outputFormat.value)) else ""
  }

  function WorkflowSection(canon: Canon, overlay: Overlay): string
  {
    WorkflowHeading + DecisionLines(canon) + FormatBlock(overlay) + "\n"
  }

  lemma FormatStep(h: string, section: string, f: OutputFormat, items: seq<(string, string)>, i: nat)
    requires items == [("description", f.description), ("example", f.example)]
    requires i < 2 && section == h + Lines(FormatLines(f)[..i])
    ensures section + "- **" + items[i].0 + "**: " + items[i].1 + "\n" == h + Lines(FormatLines(f)[..i + 1])
  {
    AppendLine(h, FormatLines(f), i);
  }

  method CompileWorkflow(canon: Canon, overlay: Overlay) returns (section: string)
    ensures section == WorkflowSection(canon, overlay)
  {
    section := WorkflowHeading;
    if canon.decisionPoints != [] {
      section := section + DecisionHeading;
      var points := Take(canon.decisionPoints, 5);
      for i := 0 to |points|
        invariant section == WorkflowHeading + DecisionHeading + Lines(Bullets(points)[..i])
      {
        BulletStep(WorkflowHeading + DecisionHeading, section, points, i);
        section := section + "- " + points[i] + "\n";
      }
      assert Bullets(points)[..|points|] == Bullets(points);
      Assoc(WorkflowHeading, DecisionHeading, Lines(Bullets(points)));
    } else {
      section := section + DefaultWorkflow;
    }
    ghost var body := section;
    if overlay.outputFormat.Some? {
      section := section + FormatHeading;
      var f := overlay.outputFormat.value;
      var items := [("description", f.description), ("example", f.example)];
      for i := 0 to |items|
        invariant section == body + FormatHeading + Lines(FormatLines(f)[..i])
      {
        FormatStep(body + FormatHeading, section, f, items, i);
        section := section + "- **" + items[i].0 + "**: " + items[i].1 + "\n";
      }
      assert FormatLines(f)[..2] == FormatLines(f);
      Assoc(body, FormatHeading, Lines(FormatLines(f)));
    }
    section := section + "\n";
  }

  // ---------------------------------------------------------------- guardrails

  function ComplianceBlock(overlay: Overlay): string
  {
    if overlay.compliance.Some? && overlay.compliance.value != "" then
      "### Compliance Requirements\n\n" + overlay.compliance.value + "\n\n"
    else ""
  }

  function GuardrailsSection(card: ScopeCard, overlay: Overlay): string
  {
    "## Guardrails\n\n"
    + "### What This Can Do\n" + Join("\n", Bullets(Take(card.mustCover, 3))) + "\n\n"
    + "### What This Cannot Do\n" + Join("\n", Bullets(Take(card.mustNotCover, 3))) + "\n\n"
    + ComplianceBlock(overlay)
  }

  // ---------------------------------------------------------------- templates

  /** A fenced code block followed by a blank line. */
  function Fenced(content: string): string
  {
    "```" + "\n" + content + "\n" + "```" + "\n\n"
  }

  function TemplateBlock(t: Template): string
  {
    "### " + t.name + "\n\n" + Fenced(t.content)
  }

  function Blocks(ts: seq<Template>): string
  {
    if ts == [] then "" else Blocks(ts[..|ts| - 1]) + TemplateBlock(ts[|ts| - 1])
  }

  lemma AppendBlock(h: string, section: string, ts: seq<Template>, i: nat)
    requires i < |ts| && section == h + Blocks(ts[..i])
    ensures section + "### " + ts[i].name + "\n\n```\n" + ts[i].content + "\n```\n\n"
         == h + Blocks(ts[..i + 1])
  {
    var t := ts[i];
    assert ts[..i + 1][..i] == ts[..i];
    assert Blocks(ts[..i + 1]) == Blocks(ts[..i]) + TemplateBlock(t);
    BlockLiteral(t);
    AppendFive(section, "### ", t.name, "\n\n```\n", t.content, "\n```\n\n");
    AppendAssoc(h, Blocks(ts[..i]), TemplateBlock(t));
  }

  /** The text the compiler appends for one template is that template's block. */
  lemma BlockLiteral(t: Template)
    ensures "### " + t.name + "\n\n```\n" + t.content + "\n```\n\n" == TemplateBlock(t)
  {
    assert "\n\n```\n" == "\n\n" + "```" + "\n";
    assert "\n```\n\n" == "\n" + "```" + "\n\n";
  }

  lemma AppendFive(s: string, a: string, b: string, c: string, d: string, e: string)
    ensures s + a + b + c + d + e == s + (a + b + c + d + e)
  {
  }

  const TemplatesHeading: string := "## Templates / Examples\n\n"
  const PlaceholderContent: string := "[Template content" + " will be added]"
  const DefaultTemplate: string := "### Default Template\n\n" + Fenced(PlaceholderContent)

  function TemplatesBody(canon: Canon): string
  {
    if canon.templates != [] then Blocks(Take(canon.templates, 5)) else DefaultTemplate
  }

  function TemplatesSection(canon: Canon): string
  {
    TemplatesHeading + TemplatesBody(canon)
  }

  method CompileTemplates(canon: Canon) returns (section: string)
    ensures section == TemplatesSection(canon)
  {
    section := TemplatesHeading;
    if canon.templates != [] {
      var ts := Take(canon.templates, 5);
      for i := 0 to |ts|
        invariant section == TemplatesHeading + Blocks(ts[..i])
      {
        AppendBlock(TemplatesHeading, section, ts, i);
        var name := ts[i].name;
        var content := ts[i].content;
        section := section + "### " + name + "\n\n```\n" + content + "\n```\n\n";
      }
      assert ts[..|ts|] == ts;
    } else {
      section := section + DefaultTemplate;
    }
  }

  // ---------------------------------------------------------------- failure modes

  function ModeText(m: FailureMode): string
  {
    "**Symptom**: " + m.symptom + "\n" + "**Fix**: " + m.fix + "\n\n"
  }

  function Modes(ms: seq<FailureMode>): string
  {
    if ms == [] then "" else Modes(ms[..|ms| - 1]) + ModeText(ms[|ms| - 1])
  }

  lemma AppendMode(h: string, section: string, ms: seq<FailureMode>, i: nat)
    requires i < |ms| && section == h + Modes(ms[..i])
    ensures section + ("**Symptom**: " + ms[i].symptom + "\n") + ("**Fix**: " + ms[i].fix + "\n\n")
         == h + Modes(ms[..i + 1])
  {
    assert ms[..i + 1][..i] == ms[..i];
  }

  const FailureModesHeading: string := "## Failure Modes & Fixes\n\n"
  const SymptomText: string := "Expected behavior not achieved\n"
  const FixText: string := "Check inputs and prerequisites\n\n"
  const DefaultSymptom: string := "- **Symptom**: " + SymptomText
  const DefaultFix: string := "  **Fix**: " + FixText
  const HistoryHeading: string := "### Common Failures in Your Context\n\n"

  function ModesBody(canon: Canon): string
  {
    if canon.failureModes != [] then Modes(Take(canon.failureModes, 5)) else DefaultSymptom + DefaultFix
  }

  function HistoryBlock(overlay: Overlay): string
  {
    if overlay.failureHistory != [] then HistoryHeading + Lines(Bullets(Take(overlay.failureHistory, 3))) + "\n"
    else ""
  }

  function FailureModesSection(canon: Canon, overlay: Overlay): string
  {
    FailureModesHeading + ModesBody(canon) + HistoryBlock(overlay)
  }

  method CompileFailureModes(canon: Canon, overlay: Overlay) returns (section: string)
    ensures section == FailureModesSection(canon, overlay)
  {
    section := FailureModesHeading;
    if canon.failureModes != [] {
      var ms := Take(canon.failureModes, 5);
      for i := 0 to |ms|
        invariant section == FailureModesHeading + Modes(ms[..i])
      {
        AppendMode(FailureModesHeading, section, ms, i);
        var symptom := ms[i].symptom;
        var fix := ms[i].fix;
        section := section + ("**Symptom**: " + symptom + "\n");
        section := section + ("**Fix**: " + fix + "\n\n");
      }
      assert ms[..|ms|] == ms;
    } else {
      section := section + DefaultSymptom;
      section := section + DefaultFix;
      Assoc(FailureModesHeading, DefaultSymptom, DefaultFix);
    }
    ghost var modes := section;
    if overlay.failureHistory != [] {
      section := section + HistoryHeading;
      var history := Take(overlay.failureHistory, 3);
      for i := 0 to |history|
        invariant section == modes + HistoryHeading + Lines(Bullets(history)[..i])
      {
        BulletStep(modes + HistoryHeading, section, history, i);
        section := section + "- " + history[i] + "\n";
      }
      assert Bullets(history)[..|history|] == Bullets(history);
      section := section + "\n";
      Assoc(modes, HistoryHeading + Lines(Bullets(history)), "\n");
      Assoc(modes, HistoryHeading, Lines(Bullets(history)));
    }
  }

  // ---------------------------------------------------------------- edge cases

  const EdgeCasesHeading: string := "## Edge Cases\n\n"
  const DefaultEdgeCases: string := "- Empty input\n" + "- Boundary conditions\n" + "- Unusual combinations\n"
  const OutOfScopeTitle: string := "### Out of Scope " + "(Related But Not Covered)"
  const OutOfScopeHeading: string := "\n" + OutOfScopeTitle + "\n"

  function EdgeBody(canon: Canon): string
  {
    if canon.edgeCases != [] then Lines(Bullets(Take(canon.edgeCases, 5))) else DefaultEdgeCases
  }

  function OutOfScopeBlock(card: ScopeCard): string
  {
    if card.mustNotCover != [] then OutOfScopeHeading + Lines(Bullets(Take(card.mustNotCover, 3))) else ""
  }

  function EdgeCasesSection(card: ScopeCard, canon: Canon): string
  {
    EdgeCasesHeading + EdgeBody(canon) + OutOfScopeBlock(card) + "\n"
  }

  method CompileEdgeCases(card: ScopeCard, canon: Canon) returns (section: string)
    ensures section == EdgeCasesSection(card, canon)
  {
    section := EdgeCasesHeading;
    if canon.edgeCases != [] {
      var cases := Take(canon.edgeCases, 5);
      for i := 0 to |cases|
        invariant section == EdgeCasesHeading + Lines(Bullets(cases)[..i])
      {
        BulletStep(EdgeCasesHeading, section, cases, i);
        section := section + "- " + cases[i] + "\n";
      }
      assert Bullets(cases)[..|cases|] == Bullets(cases);
    } else {
      section := section + DefaultEdgeCases;
    }
    ghost var cases := section;
    if card.mustNotCover != [] {
      section := section + OutOfScopeHeading;
      var outOfScope := Take(card.mustNotCover, 3);
      for i := 0 to |outOfScope|
        invariant section == cases + OutOfScopeHeading + Lines(Bullets(outOfScope)[..i])
      {
        BulletStep(cases + OutOfScopeHeading, section, outOfScope, i);
        section := section + "- " + outOfScope[i] + "\n";
      }
      assert Bullets(outOfScope)[..|outOfScope|] == Bullets(outOfScope);
      Assoc(cases, OutOfScopeHeading, Lines(Bullets(outOfScope)));
    }
    section := section + "\n";
  }

  // ---------------------------------------------------------------- references

  // The References section's fixed lines, each written in short pieces.
  const OverridesLine: string := "- `references/user_overrides.md`" + " - Organization-specific" + " constraints and preferences"
  const TemplatesLine: string := "- `references/templates.md`" + " - Template library and variations"
  const ExamplesLine: string := "- `references/examples.md`" + " - Success stories and case studies"
  const PracticesLine: string := "- `references/best_practices.md`" + " - Best practices and gotchas"

  const ResolutionIntro: string :=
    "This skill resolves conflicts" + " between external best practices" + " and local constraints:"
  const ComplianceRule: string := "1. **Compliance/Org requirements**" + " (highest priority) - never violated"
  const PreferenceRule: string := "2. **User preferences**" + " - followed unless conflict" + " with compliance"
  const PracticeRule: string := "3. **External best practices**" + " (lowest priority) - used as defaults"
  const DecisionsNote: string := "See `references/decisions.md`" + " for detailed resolution notes."

  /**
   * The lines of the References section: the four reference files, then the
   * conflict-resolution order (compliance, then user preferences, then external practice).
   */
  const ReferencesTitle: string := "## References" + " & More Information"
  const FilesIntro: string := "For detailed" + " information, see:"
  const ConflictTitle: string := "### Conflict" + " Resolution"

  const ReferenceLines: seq<string> := [
    ReferencesTitle, "", FilesIntro, OverridesLine, TemplatesLine, ExamplesLine, PracticesLine, "",
    ConflictTitle, "", ResolutionIntro, ComplianceRule, PreferenceRule, PracticeRule, "",
    DecisionsNote
  ]

  /** The fixed References section: each of its lines followed by a newline. */
  function ReferencesSection(): string
  {
    Lines(ReferenceLines)
  }

  // ---------------------------------------------------------------- assembly

  const SectionOrder: seq<string> := [
    "description", "when_to_use", "quickstart", "workflow", "guardrails",
    "templates", "failure_modes", "edge_cases", "references"
  ]

  /** The texts of the named sections that are present, in the given order. */
  function Present(order: seq<string>, sections: map<string, string>): (r: seq<string>)
    ensures |r| <= |order|
  {
    if order == [] then []
    else
      var last := order[|order| - 1];
      Present(order[..|order| - 1], sections) + (if last in sections then [sections[last]] else [])
  }

  lemma PresentStep(order: seq<string>, sections: map<string, string>, i: nat)
    requires i < |order|
    ensures Present(order[..i + 1], sections)
         == Present(order[..i], sections) + (if order[i] in sections then [sections[order[i]]] else [])
  {
    assert order[..i + 1][..i] == order[..i];
  }

  /** When every name has a section, all of them are present, in order. */
  lemma {:induction false} PresentAllKeys(order: seq<string>, sections: map<string, string>)
    requires forall k | 0 <= k < |order| :: order[k] in sections
    ensures |Present(order, sections)| == |order|
    ensures forall k | 0 <= k < |order| :: Present(order, sections)[k] == sections[order[k]]
  {
    if order != [] {
      var init := order[..|order| - 1];
      assert forall k | 0 <= k < |init| :: init[k] == order[k];
      PresentAllKeys(init, sections);
    }
  }

  /** _assemble_skill_md: frontmatter, then the present sections in order, newline-joined and collapsed. */
  method Assemble(frontmatter: string, sections: map<string, string>) returns (skill: string)
    ensures skill == Collapse(Join("\n", [frontmatter] + Present(SectionOrder, sections)))
  {
    var parts := [frontmatter];
    for i := 0 to |SectionOrder|
      invariant parts == [frontmatter] + Present(SectionOrder[..i], sections)
    {
      PresentStep(SectionOrder, sections, i);
      var name := SectionOrder[i];
      if name in sections {
        parts := parts + [sections[name]];
      }
    }
    assert SectionOrder[..|SectionOrder|] == SectionOrder;
    skill := Collapse(Join("\n", parts));
  }

  /** Frontmatter and the nine sections, in document order. */
  function DocumentParts(card: ScopeCard, canon: Canon, overlay: Overlay): (r: seq<string>)
    ensures |r| == 10
  {
    [Frontmatter(card, overlay), DescriptionSection(card), WhenToUseSection(overlay),
     QuickstartSection(canon), WorkflowSection(canon, overlay), GuardrailsSection(card, overlay),
     TemplatesSection(canon), FailureModesSection(canon, overlay), EdgeCasesSection(card, canon),
     ReferencesSection()]
  }

  function CompiledDocument(card: ScopeCard, canon: Canon, overlay: Overlay): string
  {
    Collapse(Join("\n", DocumentParts(card, canon, overlay)))
  }

  /** The section map compile builds, its entries given as plain texts. */
  function SectionMap(s: seq<string>): map<string, string>
    requires |s| == 9
  {
    map[
      "description" := s[0], "when_to_use" := s[1], "quickstart" := s[2],
      "workflow" := s[3], "guardrails" := s[4], "templates" := s[5],
      "failure_modes" := s[6], "edge_cases" := s[7], "references" := s[8]
    ]
  }

  /** Assembling a full section map lays the sections out in document order. */
  lemma PresentSections(s: seq<string>)
    requires |s| == 9
    ensures Present(SectionOrder, SectionMap(s)) == s
  {
    var m := SectionMap(s);
    var o := SectionOrder;
    assert m[o[0]] == s[0] && m[o[1]] == s[1] && m[o[2]] == s[2];
    assert m[o[3]] == s[3] && m[o[4]] == s[4] && m[o[5]] == s[5];
    assert m[o[6]] == s[6] && m[o[7]] == s[7] && m[o[8]] == s[8];
    PresentAllKeys(o, m);
  }

  /** compile: builds every section, then assembles them. */
  method Compile(card: ScopeCard, canon: Canon, overlay: Overlay) returns (skill: string)
    ensures skill == CompiledDocument(card, canon, overlay)
  {
    var frontmatter := Frontmatter(card, overlay);
    var quickstart := CompileQuickstart(canon);
    var workflow := CompileWorkflow(canon, overlay);
    var templates := CompileTemplates(canon);
    var failureModes := CompileFailureModes(canon, overlay);
    var edgeCases := CompileEdgeCases(card, canon);
    var sections := map[
      "description" := DescriptionSection(card),
      "when_to_use" := WhenToUseSection(overlay),
      "quickstart" := quickstart,
      "workflow" := workflow,
      "guardrails" := GuardrailsSection(card, overlay),
      "templates" := templates,
      "failure_modes" := failureModes,
      "edge_cases" := edgeCases,
      "references" := ReferencesSection()
    ];
    skill := Assemble(frontmatter, sections);
    CompileParts(frontmatter, DescriptionSection(card), WhenToUseSection(overlay), quickstart, workflow,
      GuardrailsSection(card, overlay), templates, failureModes, edgeCases, ReferencesSection(), sections);
  }

  /** The section map compile builds lays its entries out in document order after the frontmatter. */
  lemma CompileParts(frontmatter: string, description: string, whenToUse: string, quickstart: string,
                     workflow: string, guardrails: string, templates: string, failureModes: string,
                     edgeCases: string, references: string, sections: map<string, string>)
    requires sections == map[
      "description" := description, "when_to_use" := whenToUse, "quickstart" := quickstart,
      "workflow" := workflow, "guardrails" := guardrails, "templates" := templates,
      "failure_modes" := failureModes, "edge_cases" := edgeCases, "references" := references
    ]
    ensures [frontmatter] + Present(SectionOrder, sections)
         == [frontmatter, description, whenToUse, quickstart, workflow, guardrails, templates,
             failureModes, edgeCases, references]
  {
    var texts := [description, whenToUse, quickstart, workflow, guardrails, templates, failureModes,
                  edgeCases, references];
    assert sections == SectionMap(texts);
    PresentSections(texts);
  }

  // ---------------------------------------------------------------- conflicts and self-check

  /** detect_conflicts: walks the templates when tools are required, and never reports a conflict. */
  method DetectConflicts(card: ScopeCard, canon: Canon, overlay: Overlay) returns (conflicts: seq<string>)
    ensures conflicts == []
  {
    conflicts := [];
    if overlay.requiredTools != [] && canon.templates != [] {
      for i := 0 to |canon.templates|
        invariant conflicts == []
      {
        var content := canon.templates[i].content;
      }
    }
  }

  const RequiredHeadings: seq<string> := ["## Quick Start", "## Workflow", "## Guardrails", "## Failure Modes", "## Edge Cases"]

  /** One "Missing section" message per heading the document lacks, in order. */
  function MissingHeadings(skill: string, hs: seq<string>): (r: seq<string>)
    ensures |r| <= |hs|
    ensures r == [] <==> forall k | 0 <= k < |hs| :: Contains(skill, hs[k])
  {
    if hs == [] then []
    else
      MissingHeadings(skill, hs[..|hs| - 1])
      + (if Contains(skill, hs[|hs| - 1]) then [] else ["Missing section: " + hs[|hs| - 1]])
  }

  const LengthLimit: nat := 600
  const FenceMessage: string := "Need at least 1 code template example"
  const BoldMessage: string := "Consider adding more emphasis" + " with **bold text**"

  function TooLongMessage(lines: nat): string
  {
    "SKILL.md too long (" + NatToString(lines) + " lines, target <500)"
  }

  /** The errors validate_compilation reports, in the order it checks. */
  function CompilationErrors(skill: string): seq<string>
  {
    (if LineCount(skill) > LengthLimit then [TooLongMessage(LineCount(skill))] else [])
    + MissingHeadings(skill, RequiredHeadings)
    + (if Count(skill, "```") < 2 then [FenceMessage] else [])
    + (if Count(skill, "**") < 6 then [BoldMessage] else [])
  }

  /** A document is accepted exactly when it is short enough, has every heading, two fences and six bold markers. */
  lemma CompilationErrorsEmpty(skill: string)
    ensures CompilationErrors(skill) == [] <==>
      LineCount(skill) <= 600
      && Contains(skill, "## Quick Start") && Contains(skill, "## Workflow") && Contains(skill, "## Guardrails")
      && Contains(skill, "## Failure Modes") && Contains(skill, "## Edge Cases")
      && Count(skill, "```") >= 2 && Count(skill, "**") >= 6
  {
    var hs := RequiredHeadings;
    assert hs[0] == "## Quick Start" && hs[1] == "## Workflow" && hs[2] == "## Guardrails";
    assert hs[3] == "## Failure Modes" && hs[4] == "## Edge Cases";
  }

  /** One more heading checked by the loop of validate_compilation. */
  lemma MissingStep(skill: string, hs: seq<string>, i: nat, before: seq<string>, errors: seq<string>)
    requires i < |hs| && errors == before + MissingHeadings(skill, hs[..i])
    ensures (if Contains(skill, hs[i]) then errors else errors + ["Missing section: " + hs[i]])
         == before + MissingHeadings(skill, hs[..i + 1])
  {
    assert hs[..i + 1][..i] == hs[..i];
  }

  /** validate_compilation: the scope card is accepted but not consulted. */
  method ValidateCompilation(skill: string, card: ScopeCard) returns (valid: bool, errors: seq<string>)
    ensures errors == CompilationErrors(skill)
    ensures valid <==> errors == []
  {
    errors := [];
    var lineCount := |Split(skill, '\n')|;
    if lineCount > LengthLimit {
      errors := errors + [TooLongMessage(lineCount)];
    }
    ghost var before := errors;
    var required := RequiredHeadings;
    for i := 0 to |required|
      invariant errors == before + MissingHeadings(skill, required[..i])
    {
      MissingStep(skill, required, i, before, errors);
      if !Contains(skill, required[i]) {
        errors := errors + ["Missing section: " + required[i]];
      }
    }
    assert required[..|required|] == required;
    errors := errors + (if Count(skill, "```") < 2 then [FenceMessage] else []);
    errors := errors + (if Count(skill, "**") < 6 then [BoldMessage] else []);
    valid := |errors| == 0;
  }
}
