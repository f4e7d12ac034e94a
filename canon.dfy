/**
 * Step 3: the external canon. Online, five questions go to a notebook and each
 * answer is parsed (or replaced by a fallback); offline, the canon is generated
 * from the scope card, and that generator fails on every input.
 */
module CanonCollection {
  import opened Wrappers
  import opened Text
  import opened Records

  // ---------------------------------------------------------------- offline generators

  const UnderstandStep: string := "1. Understand "
  const ApplyStep: string := "2. Apply to: "
  const NoCoverage: string := "your use case"
  const ValidateStep: string := "3. Validate results"
  const ItemSeparator: string := ", "

  /** "2. Apply to: " and the first two must_cover items, or "your use case". */
  function ApplyLine(mustCover: seq<string>): string
  {
    ApplyStep + (if mustCover != [] then Join(ItemSeparator, Take(mustCover, 2)) else NoCoverage)
  }

  function OfflineSteps(goal: string, mustCover: seq<string>): seq<string>
  {
    [UnderstandStep + goal, ApplyLine(mustCover), ValidateStep]
  }

  /** _generate_quickstart: three steps joined by newlines. */
  function OfflineQuickstart(goal: string, mustCover: seq<string>): string
  {
    Join("\n", OfflineSteps(goal, mustCover))
  }

  lemma StepsFree()
    ensures '\n' !in UnderstandStep && '\n' !in ApplyStep && '\n' !in NoCoverage
    ensures '\n' !in ValidateStep && '\n' !in ItemSeparator
  {
  }

  /**
   * For newline-free goal and items the offline quickstart has exactly three lines,
   * and the second names the first two items or "your use case".
   */
  lemma OfflineQuickstartLines(goal: string, mustCover: seq<string>)
    requires '\n' !in goal
    requires forall k | 0 <= k < |mustCover| :: '\n' !in mustCover[k]
    ensures Split(OfflineQuickstart(goal, mustCover), '\n') == OfflineSteps(goal, mustCover)
    ensures LineCount(OfflineQuickstart(goal, mustCover)) == 3
    ensures Split(OfflineQuickstart(goal, mustCover), '\n')[1] ==
      if mustCover == [] then ApplyStep + NoCoverage else ApplyStep + Join(ItemSeparator, Take(mustCover, 2))
  {
    StepsFree();
    var steps := OfflineSteps(goal, mustCover);
    if mustCover != [] {
      JoinAbsent('\n', ItemSeparator, Take(mustCover, 2));
    }
    assert '\n' !in ApplyLine(mustCover);
    assert forall k | 0 <= k < 3 :: '\n' !in steps[k];
    SplitJoin(steps, '\n');
  }

  const DecisionOpen: string := "Is "
  const DecisionClose: string := " applicable to your case?"

  /** One decision point per item. */
  function DecisionsOf(items: seq<string>): (ds: seq<string>)
    ensures |ds| == |items|
    ensures forall k | 0 <= k < |ds| :: ds[k] == DecisionOpen + items[k] + DecisionClose
  {
    if items == [] then [] else [DecisionOpen + items[0] + DecisionClose] + DecisionsOf(items[1..])
  }

  /** _generate_decision_points: one question for each of the first five must_cover items. */
  function OfflineDecisions(mustCover: seq<string>): (ds: seq<string>)
    ensures |ds| == Min(5, |mustCover|)
    ensures forall k | 0 <= k < |ds| :: ds[k] == DecisionOpen + mustCover[k] + DecisionClose
  {
    DecisionsOf(Take(mustCover, 5))
  }

  const TemplateFor: string := "Template for "
  const ExampleOpen: string := "[Example implementation for "
  const ExampleClose: string := "]"

  function TemplatesOf(items: seq<string>): (ts: seq<Template>)
    ensures |ts| == |items|
    ensures forall k | 0 <= k < |ts| :: ts[k] == Template(TemplateFor + items[k], ExampleOpen + items[k] + ExampleClose)
  {
    if items == [] then []
    else [Template(TemplateFor + items[0], ExampleOpen + items[0] + ExampleClose)] + TemplatesOf(items[1..])
  }

  /** _generate_templates: one template for each of the first three must_cover items. */
  function OfflineTemplates(mustCover: seq<string>): (ts: seq<Template>)
    ensures |ts| == Min(3, |mustCover|)
    ensures forall k | 0 <= k < |ts| :: ts[k].name == TemplateFor + mustCover[k]
    ensures forall k | 0 <= k < |ts| :: ts[k].content == ExampleOpen + mustCover[k] + ExampleClose
  {
    TemplatesOf(Take(mustCover, 3))
  }

  /** _generate_failure_modes: five fixed entries; the goal is not used. */
  function OfflineFailureModes(goal: string): seq<FailureMode>
  {
    [FailureMode("Expected behavior " + "not achieved", "Verify prerequisites " + "and inputs"),
     FailureMode("Output format " + "unexpected", "Check output " + "specification"),
     FailureMode("Process fails " + "silently", "Enable verbose logging " + "for debugging"),
     FailureMode("Performance issues", "Optimize configuration " + "or split large inputs"),
     FailureMode("Integration errors", "Verify compatibility " + "with dependent systems")]
  }

  /** The offline failure modes are five entries and the same for every goal. */
  lemma OfflineModesFixed(g: string, h: string)
    ensures |OfflineFailureModes(g)| == 5
    ensures OfflineFailureModes(g) == OfflineFailureModes(h)
  {
  }

  /** The message of the NameError raised by _generate_edge_cases. */
  const UnboundItem: string := "name 'item' is not defined"

  /**
   * _generate_edge_cases: its first element formats `item` outside the comprehension
   * that binds it, so building the list raises before any element exists. The ensures
   * spells out the body as an unfolding aid.
   */
  function OfflineEdgeCases(mustNotCover: seq<string>): (r: Result<seq<string>, string>)
    ensures r == Err(UnboundItem)
  {
    Err(UnboundItem)
  }

  const OfflineSources: seq<Source> := [
    Source("Best Practices", "N/A", "primary"),
    Source("Common Patterns", "N/A", "secondary")]

  /** The offline canon that _generate_canon_offline would build from the given edge cases. */
  function OfflineCanonWith(card: ScopeCard, edgeCases: seq<string>): (c: Canon)
    ensures c.notebookId == None && c.sources == OfflineSources && |c.sources| == 2
    ensures c.decisionPoints == OfflineDecisions(card.mustCover)
    ensures c.templates == OfflineTemplates(card.mustCover)
    ensures c.edgeCases == edgeCases
  {
    Canon(None, OfflineSources, OfflineQuickstart(card.goal, card.mustCover),
      OfflineDecisions(card.mustCover), OfflineTemplates(card.mustCover),
      OfflineFailureModes(card.goal), edgeCases)
  }

  /** _generate_canon_offline: the dict literal fails when it reaches the edge cases. */
  function OfflineCanon(card: ScopeCard): (r: Result<Canon, string>)
    ensures r.Ok? ==> r.value.notebookId == None && |r.value.sources| == 2
  {
    match OfflineEdgeCases(card.mustNotCover)
    case Err(e) => Err(e)
    case Ok(edges) => Ok(OfflineCanonWith(card, edges))
  }

  /** Offline generation fails with the NameError for every scope card. */
  lemma OfflineAlwaysRaises(card: ScopeCard)
    ensures OfflineCanon(card) == Err(UnboundItem)
  {
  }

  // ---------------------------------------------------------------- online parsing

  datatype Category = QuickstartCategory | DecisionCategory | TemplatesCategory | FailureCategory | EdgeCategory

  /** CANON_QUESTIONS, in the order they are asked. */
  const Categories: seq<Category> :=
    [QuickstartCategory, DecisionCategory, TemplatesCategory, FailureCategory, EdgeCategory]

  function Key(c: Category): string
  {
    match c
    case QuickstartCategory => "quickstart"
    case DecisionCategory => "decision_points"
    case TemplatesCategory => "templates"
    case FailureCategory => "failure_modes"
    case EdgeCategory => "edge_cases"
  }

  function QuestionText(c: Category): string
  {
    match c
    case QuickstartCategory => "Provide a 3-step quickstart for this skill"
    case DecisionCategory => "What are the key decision points when using this skill?"
    case TemplatesCategory => "Provide 2-3 practical templates or command examples"
    case FailureCategory => "What are the most common failure modes and how to fix them?"
    case EdgeCategory => "What are important edge cases to consider?"
  }

  /** A category's value in canon_data: a list of lines, of templates or of failure modes, or []. */
  datatype Parsed =
    | LinesValue(lines: seq<string>)
    | TemplatesValue(templates: seq<Template>)
    | ModesValue(modes: seq<FailureMode>)
    | EmptyValue

  /** "Template {i+1}" with the i-th line, numbering from `start`. */
  function NumberedTemplates(lines: seq<string>, start: nat): (ts: seq<Template>)
    ensures |ts| == |lines|
    ensures forall k | 0 <= k < |ts| :: ts[k] == Template("Template " + NatToString(start + k + 1), lines[k])
  {
    if lines == [] then []
    else [Template("Template " + NatToString(start + 1), lines[0])] + NumberedTemplates(lines[1..], start + 1)
  }

  /** The parser of each question. */
  function ParseAnswer(c: Category, response: string): Parsed
  {
    match c
    case QuickstartCategory => LinesValue(Take(Split(response, '\n'), 3))
    case DecisionCategory => LinesValue(Take(Split(response, '\n'), 5))
    case TemplatesCategory => TemplatesValue(NumberedTemplates(Take(Split(response, '\n'), 3), 0))
    case FailureCategory => ModesValue([FailureMode("Issue", "Fix approach")])
    case EdgeCategory => LinesValue(Take(Split(response, '\n'), 5))
  }

  const Fallbacks: map<string, Parsed> := map[
    "quickstart" := LinesValue(["Step 1", "Step 2", "Step 3"]),
    "decision_points" := LinesValue(["Decision 1", "Decision 2"]),
    "templates" := TemplatesValue([Template("Default", "[Template]")]),
    "failure_modes" := ModesValue([FailureMode("Error", "Fix")]),
    "edge_cases" := LinesValue(["Edge case 1", "Edge case 2"])]

  /** _get_fallback: fixed data for the five categories, [] for any other key. The ensures are an unfolding aid. */
  function Fallback(category: string): (p: Parsed)
    ensures category !in Fallbacks ==> p == EmptyValue
    ensures category in Fallbacks ==> p == Fallbacks[category]
  {
    if category in Fallbacks then Fallbacks[category] else EmptyValue
  }

  /** Each category's fallback is of the same kind the category's parser produces. */
  lemma FallbackKinds()
    ensures Fallback(Key(QuickstartCategory)).LinesValue? && Fallback(Key(DecisionCategory)).LinesValue?
    ensures Fallback(Key(TemplatesCategory)).TemplatesValue? && Fallback(Key(FailureCategory)).ModesValue?
    ensures Fallback(Key(EdgeCategory)).LinesValue?
  {
  }

  /** _extract_sources: two fixed internal sources, whatever the card. */
  function ExtractSources(card: ScopeCard): (s: seq<Source>)
    ensures |s| == 2 && forall k | 0 <= k < 2 :: s[k].url == "internal" && s[k].relevance == "primary"
  {
    [Source("Skill Goal", "internal", "primary"), Source("Coverage Requirements", "internal", "primary")]
  }

  /** A truthy answer: present and non-empty. */
  predicate Answered(answer: Option<string>) {
    answer.Some? && answer.value != ""
  }

  /** The value canon_data stores for category c when the notebook answered `answer`. */
  function Entry(c: Category, answer: Option<string>): Parsed
  {
    if Answered(answer) then ParseAnswer(c, answer.value) else Fallback(Key(c))
  }

  function LinesOf(data: map<string, Parsed>, key: string): seq<string>
  {
    if key in data && data[key].LinesValue? then data[key].lines else []
  }

  /** Step 3 of collect_canon: the canon built from canon_data, missing keys read as []. */
  function StructureCanon(notebook: string, card: ScopeCard, data: map<string, Parsed>): Canon
  {
    Canon(
      Some(notebook),
      ExtractSources(card),
      Join("\n", LinesOf(data, "quickstart")),
      LinesOf(data, "decision_points"),
      if "templates" in data && data["templates"].TemplatesValue? then data["templates"].templates else [],
      if "failure_modes" in data && data["failure_modes"].ModesValue? then data["failure_modes"].modes else [],
      LinesOf(data, "edge_cases"))
  }

  /** The notebook's answer to category c's question. */
  function Ask(query: (string, string) -> Option<string>, notebook: string, c: Category): Option<string>
  {
    query(notebook, QuestionText(c))
  }

  // The value each field of the online canon takes, given the answer to its own question.

  function QuickstartLines(answer: Option<string>): seq<string>
  {
    if Answered(answer) then Take(Split(answer.value, '\n'), 3) else ["Step 1", "Step 2", "Step 3"]
  }

  function DecisionsOfAnswer(answer: Option<string>): seq<string>
  {
    if Answered(answer) then Take(Split(answer.value, '\n'), 5) else ["Decision 1", "Decision 2"]
  }

  function TemplatesOfAnswer(answer: Option<string>): seq<Template>
  {
    if Answered(answer) then NumberedTemplates(Take(Split(answer.value, '\n'), 3), 0) else [Template("Default", "[Template]")]
  }

  function ModesOfAnswer(answer: Option<string>): seq<FailureMode>
  {
    if Answered(answer) then [FailureMode("Issue", "Fix approach")] else [FailureMode("Error", "Fix")]
  }

  function EdgesOfAnswer(answer: Option<string>): seq<string>
  {
    if Answered(answer) then Take(Split(answer.value, '\n'), 5) else ["Edge case 1", "Edge case 2"]
  }

  /**
   * The online canon, field by field: each field is its own question's parsed answer when
   * that answer is truthy and the category's fallback otherwise; quickstart is joined by newlines.
   */
  function OnlineCanon(query: (string, string) -> Option<string>, notebook: string, card: ScopeCard): Canon
  {
    Canon(
      Some(notebook), ExtractSources(card),
      Join("\n", QuickstartLines(Ask(query, notebook, QuickstartCategory))),
      DecisionsOfAnswer(Ask(query, notebook, DecisionCategory)),
      TemplatesOfAnswer(Ask(query, notebook, TemplatesCategory)),
      ModesOfAnswer(Ask(query, notebook, FailureCategory)),
      EdgesOfAnswer(Ask(query, notebook, EdgeCategory)))
  }

  lemma EntryQuickstart(a: Option<string>)
    ensures Entry(QuickstartCategory, a) == LinesValue(QuickstartLines(a))
  {
  }

  lemma EntryDecision(a: Option<string>)
    ensures Entry(DecisionCategory, a) == LinesValue(DecisionsOfAnswer(a))
  {
  }

  lemma EntryTemplates(a: Option<string>)
    ensures Entry(TemplatesCategory, a) == TemplatesValue(TemplatesOfAnswer(a))
  {
  }

  lemma EntryFailure(a: Option<string>)
    ensures Entry(FailureCategory, a) == ModesValue(ModesOfAnswer(a))
  {
  }

  lemma EntryEdge(a: Option<string>)
    ensures Entry(EdgeCategory, a) == LinesValue(EdgesOfAnswer(a))
  {
  }

  /** The canon structured from data holding the five fields' values. */
  lemma FieldsOf(notebook: string, card: ScopeCard, data: map<string, Parsed>,
                 q: seq<string>, d: seq<string>, t: seq<Template>, f: seq<FailureMode>, e: seq<string>)
    requires "quickstart" in data && data["quickstart"] == LinesValue(q)
    requires "decision_points" in data && data["decision_points"] == LinesValue(d)
    requires "templates" in data && data["templates"] == TemplatesValue(t)
    requires "failure_modes" in data && data["failure_modes"] == ModesValue(f)
    requires "edge_cases" in data && data["edge_cases"] == LinesValue(e)
    ensures StructureCanon(notebook, card, data) == Canon(Some(notebook), ExtractSources(card), Join("\n", q), d, t, f, e)
  {
  }

  /** canon_data holds the entries of the first n questions. */
  predicate Filled(query: (string, string) -> Option<string>, notebook: string, data: map<string, Parsed>, n: nat)
    requires n <= |Categories|
  {
    forall k | 0 <= k < n :: Key(Categories[k]) in data && data[Key(Categories[k])] == Entry(Categories[k], Ask(query, notebook, Categories[k]))
  }

  /** Storing the next question's entry extends what is filled by one. */
  lemma FillStep(query: (string, string) -> Option<string>, notebook: string, data: map<string, Parsed>, i: nat, value: Parsed)
    requires i < |Categories| && Filled(query, notebook, data, i)
    requires value == Entry(Categories[i], Ask(query, notebook, Categories[i]))
    ensures Filled(query, notebook, data[Key(Categories[i]) := value], i + 1)
  {
    KeysDistinct();
    CategoriesDistinct();
  }

  /** canon_data holding every category's entry is structured into the online canon. */
  lemma StructureComplete(query: (string, string) -> Option<string>, notebook: string, card: ScopeCard,
                          data: map<string, Parsed>)
    requires Filled(query, notebook, data, 5)
    ensures StructureCanon(notebook, card, data) == OnlineCanon(query, notebook, card)
  {
    var q := FilledAt(query, notebook, data, 0);
    var d := FilledAt(query, notebook, data, 1);
    var t := FilledAt(query, notebook, data, 2);
    var f := FilledAt(query, notebook, data, 3);
    var e := FilledAt(query, notebook, data, 4);
    assert Categories == [QuickstartCategory, DecisionCategory, TemplatesCategory, FailureCategory, EdgeCategory];
    EntryQuickstart(q);
    EntryDecision(d);
    EntryTemplates(t);
    EntryFailure(f);
    EntryEdge(e);
    FieldsOf(notebook, card, data, QuickstartLines(q), DecisionsOfAnswer(d), TemplatesOfAnswer(t), ModesOfAnswer(f),
      EdgesOfAnswer(e));
  }

  /** The k-th question's entry, with the answer it was made from. */
  lemma FilledAt(query: (string, string) -> Option<string>, notebook: string, data: map<string, Parsed>, k: nat)
      returns (answer: Option<string>)
    requires k < 5 && Filled(query, notebook, data, 5)
    ensures answer == Ask(query, notebook, Categories[k])
    ensures Key(Categories[k]) in data && data[Key(Categories[k])] == Entry(Categories[k], answer)
  {
    answer := Ask(query, notebook, Categories[k]);
  }

  /** The quickstart lines are one to three newline-free pieces. */
  lemma QuickstartLinesFree(answer: Option<string>)
    ensures 1 <= |QuickstartLines(answer)| <= 3
    ensures forall k | 0 <= k < |QuickstartLines(answer)| :: '\n' !in QuickstartLines(answer)[k]
  {
    var lines := QuickstartLines(answer);
    if Answered(answer) {
      var pieces := Split(answer.value, '\n');
      assert forall k | 0 <= k < |lines| :: lines[k] == pieces[k];
    } else {
      assert lines == ["Step 1", "Step 2", "Step 3"];
    }
  }

  /** The online quickstart splits back into at most three lines: the ones it was joined from. */
  lemma OnlineQuickstartLines(query: (string, string) -> Option<string>, notebook: string, card: ScopeCard)
    ensures var canon := OnlineCanon(query, notebook, card);
      var lines := QuickstartLines(Ask(query, notebook, QuickstartCategory));
      Split(canon.quickstart, '\n') == lines && LineCount(canon.quickstart) <= 3
  {
    var lines := QuickstartLines(Ask(query, notebook, QuickstartCategory));
    QuickstartLinesFree(Ask(query, notebook, QuickstartCategory));
    SplitJoin(lines, '\n');
  }

  /** At most three templates come from an answer, numbered from 1. */
  lemma OnlineTemplates(response: string)
    requires response != ""
    ensures var p := ParseAnswer(TemplatesCategory, response);
      p.TemplatesValue? && |p.templates| <= 3 &&
      (forall k | 0 <= k < |p.templates| :: p.templates[k].name == "Template " + NatToString(k + 1))
  {
  }

  lemma KeysDistinct()
    ensures forall c, d: Category | c != d :: Key(c) != Key(d)
  {
  }

  lemma CategoriesDistinct()
    ensures forall j, k | 0 <= j < k < |Categories| :: Categories[j] != Categories[k]
  {
  }

  // ---------------------------------------------------------------- collect_canon

  /** True for None and for the empty id, like `not self.notebook_id`. */
  predicate Falsy(id: Option<string>) {
    id.None? || id.value == ""
  }

  class NotebookIntegration {
    var notebookId: Option<string>

    constructor ()
      ensures notebookId == None
    {
      notebookId := None;
    }

    /**
     * collect_canon. `created` is what _create_notebook returned and `query` the notebook's
     * answer to a question. Without a notebook the offline generator runs and raises; the
     * handler runs it once more outside the try, so the same error leaves the method.
     */
    method CollectCanon(card: ScopeCard, created: Option<string>, query: (string, string) -> Option<string>)
        returns (r: Result<Canon, string>)
      modifies this
      ensures notebookId == created
      ensures Falsy(created) ==> r == OfflineCanon(card) && r == Err(UnboundItem)
      ensures !Falsy(created) ==> r == Ok(OnlineCanon(query, created.value, card))
    {
      notebookId := created;
      if Falsy(notebookId) {
        r := OfflineCanon(card);
        return;
      }
      var id := notebookId.value;
      var data: map<string, Parsed> := map[];
      var i := 0;
      while i < |Categories|
        invariant 0 <= i <= |Categories|
        invariant notebookId == created
        invariant Filled(query, id, data, i)
      {
        var c := Categories[i];
        var answer := Ask(query, id, c);
        var value;
        if answer.Some? && answer.value != "" {
          value := ParseAnswer(c, answer.value);
        } else {
          value := Fallback(Key(c));
        }
        FillStep(query, id, data, i, value);
        data := data[Key(c) := value];
        i := i + 1;
      }
      StructureComplete(query, id, card, data);
      r := Ok(StructureCanon(id, card, data));
    }
  }
}
