/**
 * SkillForgeEngine: the rules of steps 2 and 4, the engine's own scope-card check,
 * and generate_skill, which runs the six steps and the quality gates and decides
 * the status of the run.
 */
module Engine {
  import opened Wrappers
  import opened Text
  import opened Records
  import ScopeBuilder
  import CanonCollection
  import Interview
  import Compiler
  import Validators
  import Findings

  // ---------------------------------------------------------------- ScopeCard.validate

  const TriggerWordsPrefix: string := "Need 5+ " + "trigger words, " + "got "
  const MustCoverGot: string := "Need 3+ " + "must_cover" + " items, got "
  const MustNotCoverGot: string := "Need 3+ " + "must_not_cover" + " items, got "
  const OutputFormMessage: string := "Output form " + "must be specified"

  /** The engine's message for a broken rule; it says "got" where the builder says "have". */
  function EngineMessage(rule: ScopeRule, card: ScopeCard): string
  {
    match rule
    case GoalLength => ScopeBuilder.GoalMessage
    case TriggerCount => TriggerWordsPrefix + NatToString(|card.triggerWords|)
    case MustCoverCount => MustCoverGot + NatToString(|card.mustCover|)
    case MustNotCoverCount => MustNotCoverGot + NatToString(|card.mustNotCover|)
    case OutputFormGiven => OutputFormMessage
    case CriteriaGiven => ScopeBuilder.CriteriaMessage
  }

  function Check(rule: ScopeRule, card: ScopeCard): seq<string>
  {
    if Holds(rule, card) then [] else [EngineMessage(rule, card)]
  }

  /** The messages of the broken rules, in the order the rules are checked. */
  function CardErrors(card: ScopeCard): (errors: seq<string>)
    ensures |errors| <= 6
    ensures errors == [] <==> Complete(card)
  {
    Check(GoalLength, card) + Check(TriggerCount, card) + Check(MustCoverCount, card) +
    Check(MustNotCoverCount, card) + Check(OutputFormGiven, card) + Check(CriteriaGiven, card)
  }

  /** ScopeCard.validate: appends one message per broken rule. */
  method ValidateCard(card: ScopeCard) returns (ok: bool, errors: seq<string>)
    ensures errors == CardErrors(card)
    ensures ok <==> errors == []
    ensures ok <==> Complete(card)
  {
    errors := [];
    if card.goal == "" || |Strip(card.goal)| < 10 {
      errors := errors + [ScopeBuilder.GoalMessage];
    }
    assert errors == Check(GoalLength, card);
    if |card.triggerWords| < 5 {
      errors := errors + [TriggerWordsPrefix + NatToString(|card.triggerWords|)];
    }
    assert errors == Check(GoalLength, card) + Check(TriggerCount, card);
    if |card.mustCover| < 3 {
      errors := errors + [MustCoverGot + NatToString(|card.mustCover|)];
    }
    ghost var upToCover := errors;
    assert upToCover == Check(GoalLength, card) + Check(TriggerCount, card) + Check(MustCoverCount, card);
    if |card.mustNotCover| < 3 {
      errors := errors + [MustNotCoverGot + NatToString(|card.mustNotCover|)];
    }
    assert errors == upToCover + Check(MustNotCoverCount, card);
    ghost var upToNot := errors;
    if card.outputForm == "" {
      errors := errors + [OutputFormMessage];
    }
    if |card.successCriteria| < 1 {
      errors := errors + [ScopeBuilder.CriteriaMessage];
    }
    assert errors == upToNot + Check(OutputFormGiven, card) + Check(CriteriaGiven, card);
    ok := |errors| == 0;
  }

  /** The engine and the builder reject the same cards, with one message per broken rule each. */
  lemma SameVerdict(card: ScopeCard)
    ensures |CardErrors(card)| == |ScopeBuilder.BuilderErrors(card)|
    ensures CardErrors(card) == [] <==> ScopeBuilder.BuilderErrors(card) == []
  {
  }

  // ---------------------------------------------------------------- step 2: degrees of freedom

  datatype Freedom = Low | Medium | High

  function TotalItems(card: ScopeCard): nat
  {
    |card.mustCover| + |card.mustNotCover|
  }

  /** _step2_degrees_of_freedom's classification. */
  function Tier(card: ScopeCard): (f: Freedom)
    ensures f == Low <==> TotalItems(card) <= 6 && |card.triggerWords| <= 5
    ensures f == Medium <==> !(TotalItems(card) <= 6 && |card.triggerWords| <= 5) && TotalItems(card) <= 12
    ensures f == High <==> TotalItems(card) > 12
  {
    if TotalItems(card) <= 6 && |card.triggerWords| <= 5 then Low
    else if TotalItems(card) <= 12 then Medium
    else High
  }

  function Rank(f: Freedom): nat
  {
    match f
    case Low => 0
    case Medium => 1
    case High => 2
  }

  /** With the trigger count fixed, more items never lower the tier. */
  lemma TierMonotone(a: ScopeCard, b: ScopeCard)
    requires |a.triggerWords| == |b.triggerWords| && TotalItems(a) <= TotalItems(b)
    ensures Rank(Tier(a)) <= Rank(Tier(b))
  {
  }

  /** A card that passes validate has at least six items, so it is low only at exactly six items and five triggers. */
  lemma ValidCardTier(card: ScopeCard)
    requires Complete(card)
    ensures TotalItems(card) >= 6
    ensures Tier(card) == Low <==> TotalItems(card) == 6 && |card.triggerWords| == 5
  {
  }

  const LowRationale: string := "Simple, well-defined scope" + " → Use scripts with fixed steps"
  const MediumRationale: string := "Moderate complexity" + " → Use parametric scripts + references"
  const HighRationale: string := "Complex, context-dependent" + " → Use SKILL.md framework + examples"

  function Rationale(f: Freedom): string
  {
    match f
    case Low => LowRationale
    case Medium => MediumRationale
    case High => HighRationale
  }

  const MinimalGuidance: string := "Minimal: " + "Just Quickstart + Guardrails + Failure modes"
  const StandardGuidance: string := "Standard: " + "Quickstart + Workflow + Guardrails + Templates + Failure modes"
  const ComprehensiveGuidance: string := "Comprehensive: " + "All sections + complex decision trees + extensive examples"

  /** _get_skill_md_guidance. */
  function Guidance(f: Freedom): string
  {
    match f
    case Low => MinimalGuidance
    case Medium => StandardGuidance
    case High => ComprehensiveGuidance
  }

  /** Each tier has its own rationale and its own guidance. */
  lemma TierTexts(f: Freedom, g: Freedom)
    ensures Rationale(f) == Rationale(g) <==> f == g
    ensures Guidance(f) == Guidance(g) <==> f == g
  {
    assert LowRationale[0] == 'S' && MediumRationale[0] == 'M' && HighRationale[0] == 'C';
    assert MinimalGuidance[0] == 'M' && StandardGuidance[0] == 'S' && ComprehensiveGuidance[0] == 'C';
  }

  /** script_count: one script for the low tier only. */
  function ScriptCount(f: Freedom): (n: nat)
    ensures n == 1 <==> f == Low
    ensures n <= 1
  {
    if f == Low then 1 else 0
  }

  const TemplatesDoc: string := "templates.md"
  const EdgeCasesDoc: string := "edge_cases.md"
  const FailureModesDoc: string := "failure_modes.md"

  /** The reference documents _get_reference_docs lists. */
  function ReferenceDocList(card: ScopeCard): seq<string>
  {
    (if Contains(Lower(card.outputForm), "template") then [TemplatesDoc] else []) +
    (if card.mustNotCover != [] then [EdgeCasesDoc] else []) +
    [FailureModesDoc]
  }

  /** _get_reference_docs: appends the documents the card calls for. */
  method ReferenceDocs(card: ScopeCard) returns (docs: seq<string>)
    ensures docs == ReferenceDocList(card)
  {
    docs := [];
    if Contains(Lower(card.outputForm), "template") {
      docs := docs + [TemplatesDoc];
    }
    if |card.mustNotCover| > 0 {
      docs := docs + [EdgeCasesDoc];
    }
    docs := docs + [FailureModesDoc];
  }

  /**
   * The list always ends with failure_modes.md; it has templates.md iff the lower-cased
   * output form contains "template", edge_cases.md iff must_not_cover is non-empty, in that order.
   */
  lemma ReferenceDocsShape(card: ScopeCard)
    ensures var docs := ReferenceDocList(card);
      && 1 <= |docs| <= 3
      && Last(docs) == FailureModesDoc
      && (TemplatesDoc in docs <==> Contains(Lower(card.outputForm), "template"))
      && (EdgeCasesDoc in docs <==> card.mustNotCover != [])
      && (TemplatesDoc in docs ==> docs[0] == TemplatesDoc)
      && (EdgeCasesDoc in docs ==> docs[|docs| - 2] == EdgeCasesDoc)
  {
    assert TemplatesDoc != EdgeCasesDoc && TemplatesDoc != FailureModesDoc && EdgeCasesDoc != FailureModesDoc by {
      assert TemplatesDoc[0] == 't' && EdgeCasesDoc[0] == 'e' && FailureModesDoc[0] == 'f';
    }
  }

  datatype Resources = Resources(guidance: string, scriptCount: nat, referenceDocs: seq<string>)

  datatype Degrees = Degrees(freedom: Freedom, rationale: string, resources: Resources)

  function DegreesOf(card: ScopeCard): Degrees
  {
    var f := Tier(card);
    Degrees(f, Rationale(f), Resources(Guidance(f), ScriptCount(f), ReferenceDocList(card)))
  }

  /** _step2_degrees_of_freedom with _suggest_resources. */
  method DegreesOfFreedom(card: ScopeCard) returns (d: Degrees)
    ensures d == DegreesOf(card)
  {
    var f := Tier(card);
    var docs := ReferenceDocs(card);
    d := Degrees(f, Rationale(f), Resources(Guidance(f), ScriptCount(f), docs));
  }

  // ---------------------------------------------------------------- step 4: contract

  datatype Contract = Contract(
    quickstart: string,
    decisionPoints: seq<string>,
    templates: seq<Template>,
    failureModes: seq<FailureMode>,
    edgeCases: seq<string>)

  /** _step4_contract_extraction: the five executable parts of the canon. */
  function ExtractContract(canon: Canon): Contract
  {
    Contract(canon.quickstart, canon.decisionPoints, canon.templates, canon.failureModes, canon.edgeCases)
  }

  /** The canon's id and sources together with its contract give the canon back: nothing is altered. */
  lemma ContractVerbatim(canon: Canon)
    ensures var c := ExtractContract(canon);
      Canon(canon.notebookId, canon.sources, c.quickstart, c.decisionPoints, c.templates, c.failureModes, c.edgeCases)
      == canon
  {
  }

  // ---------------------------------------------------------------- generate_skill

  datatype Status = Generating | Success | FailedValidation | ErrorStatus

  /** result["steps"]: each step's output once the step has run. */
  datatype Steps = Steps(
    scopeCard: Option<ScopeCard>,
    degrees: Option<Degrees>,
    canon: Option<Canon>,
    contract: Option<Contract>,
    overlay: Option<Overlay>,
    skillMd: Option<string>)

  const NoSteps: Steps := Steps(None, None, None, None, None, None)

  datatype GenerationResult = GenerationResult(
    status: Status,
    steps: Steps,
    artifacts: seq<string>,
    errors: seq<string>,
    warnings: seq<string>,
    validation: Option<Validators.Report>)

  /** The card step 1 builds, in either mode. */
  function CardOf(request: string, interactive: bool, input: nat -> string, at: nat): ScopeCard
  {
    if interactive then ScopeBuilder.InteractiveCard(request, input, at) else ScopeBuilder.RequestCard(request)
  }

  /** The first answer step 1 leaves for the interview. */
  function AfterCard(request: string, interactive: bool, input: nat -> string, at: nat): nat
  {
    if interactive then ScopeBuilder.InteractiveNext(request, input, at) else at
  }

  /** What collect_canon returns, or the error it raises. */
  function CanonOf(card: ScopeCard, created: Option<string>, query: (string, string) -> Option<string>): Result<Canon, string>
  {
    if CanonCollection.Falsy(created) then CanonCollection.OfflineCanon(card)
    else Ok(CanonCollection.OnlineCanon(query, created.value, card))
  }

  /** The status after the quality gates, with the gate errors extended into the result. */
  function Judged(r: GenerationResult, report: Validators.Report): GenerationResult
  {
    if !report.passed then r.(status := FailedValidation, errors := r.errors + report.errors, validation := Some(report))
    else r.(status := Success, validation := Some(report))
  }

  /** _save_artifacts: the output directory on success; on failure its message ends the run as an error. */
  function Saved(r: GenerationResult, save: Result<string, string>): GenerationResult
  {
    match save
    case Ok(dir) => r.(artifacts := r.artifacts + [dir])
    case Err(message) => r.(status := ErrorStatus, errors := r.errors + [message])
  }

  /**
   * The result of a run, from what each step produced: the card, the canon or the error
   * collect_canon raised, the overlay, the compiled document and its report, and the save.
   * The last four matter only when the canon step succeeded.
   */
  function RunFrom(card: ScopeCard, canon: Result<Canon, string>, overlay: Overlay, skill: string,
                   report: Validators.Report, save: Result<string, string>): GenerationResult
  {
    var early := GenerationResult(Generating, NoSteps.(scopeCard := Some(card), degrees := Some(DegreesOf(card))), [], [], [], None);
    match canon
    case Err(e) => early.(status := ErrorStatus, errors := [e])
    case Ok(c) =>
      var steps := early.steps.(canon := Some(c), contract := Some(ExtractContract(c)),
                                overlay := Some(overlay), skillMd := Some(skill));
      Saved(Judged(early.(steps := steps), report), save)
  }

  /** Steps 1 and 2's card: the builder's card and the first answer it leaves for the interview. */
  method ScopeStep(request: string, interactive: bool, input: nat -> string, at: nat) returns (card: ScopeCard, next: nat)
    ensures card == CardOf(request, interactive, input, at) && next == AfterCard(request, interactive, input, at)
  {
    var builder := new ScopeBuilder.ScopeCardBuilder();
    next := builder.Build(request, interactive, input, at);
    card := builder.card;
  }

  /** Step 3: a fresh notebook integration collects the canon, or raises. */
  method CanonStep(card: ScopeCard, created: Option<string>, query: (string, string) -> Option<string>)
      returns (canon: Result<Canon, string>)
    ensures canon == CanonOf(card, created, query)
  {
    var integration := new CanonCollection.NotebookIntegration();
    canon := integration.CollectCanon(card, created, query);
  }

  /** Steps 6 and 7: compile the document, then run every quality gate over it. */
  method CompileStep(card: ScopeCard, canon: Canon, overlay: Overlay) returns (skill: string, report: Validators.Report)
    ensures skill == Compiler.CompiledDocument(card, canon, overlay) && report == Validators.ReportOf(skill)
  {
    skill := Compiler.Compile(card, canon, overlay);
    var validator := new Validators.SkillValidator();
    report := validator.ValidateSkill(skill);
  }

  /**
   * Steps 4 to 7 and the save, once the canon is collected: each step's output is recorded in
   * `result`, the gates decide the status and a failed save turns it into an error.
   */
  method Assemble(result0: GenerationResult, canon: Canon, overlay: Overlay, skill: string,
                  report: Validators.Report, save: Result<string, string>) returns (result: GenerationResult)
    ensures result == Saved(Judged(result0.(steps := result0.steps.(canon := Some(canon), contract := Some(ExtractContract(canon)),
                                                                        overlay := Some(overlay), skillMd := Some(skill))), report), save)
  {
    result := result0.(steps := result0.steps.(canon := Some(canon)));
    result := result.(steps := result.steps.(contract := Some(ExtractContract(canon))));
    result := result.(steps := result.steps.(overlay := Some(overlay)));
    result := result.(steps := result.steps.(skillMd := Some(skill)));
    result := result.(validation := Some(report));
    if !report.passed {
      result := result.(status := FailedValidation, errors := result.errors + report.errors);
    } else {
      result := result.(status := Success);
    }
    if save.Ok? {
      result := result.(artifacts := result.artifacts + [save.value]);
    } else {
      result := result.(status := ErrorStatus, errors := result.errors + [save.error]);
    }
  }

  /**
   * generate_skill: the six steps, the gates, the status and the save, updating one result.
   * `input` is the stream of typed answers, read from `at`; `created` and `query` stand for the
   * notebook collaborator; `save` for the outcome of saving. The ghost outputs name what each
   * step produced: the result is RunFrom of them, and each is the step's function of its inputs.
   */
  method GenerateSkill(request: string, interactive: bool, input: nat -> string, at: nat,
                       created: Option<string>, query: (string, string) -> Option<string>,
                       save: Result<string, string>)
      returns (result: GenerationResult, ghost card: ScopeCard, ghost canon: Result<Canon, string>,
               ghost overlay: Overlay, ghost skill: string, ghost report: Validators.Report)
    ensures result == RunFrom(card, canon, overlay, skill, report, save)
    ensures card == CardOf(request, interactive, input, at) && canon == CanonOf(card, created, query)
    ensures canon.Ok? ==> overlay == Interview.OverlayOf(interactive, input, AfterCard(request, interactive, input, at))
    ensures canon.Ok? ==> skill == Compiler.CompiledDocument(card, canon.value, overlay) && report == Validators.ReportOf(skill)
  {
    result := GenerationResult(Generating, NoSteps, [], [], [], None);
    var built, next := ScopeStep(request, interactive, input, at);
    card := built;
    result := result.(steps := result.steps.(scopeCard := Some(built)));
    var degrees := DegreesOfFreedom(built);
    result := result.(steps := result.steps.(degrees := Some(degrees)));
    var collected := CanonStep(built, created, query);
    canon := collected;
    if collected.Err? {
      overlay, skill, report := *, *, *;
      result := result.(status := ErrorStatus, errors := result.errors + [collected.error]);
      return;
    }
    var answers, _ := Interview.Conduct(interactive, input, next);
    var document, validation := CompileStep(built, collected.value, answers);
    overlay, skill, report := answers, document, validation;
    result := Assemble(result, collected.value, answers, document, validation, save);
  }

  /**
   * How a run ends: "success" iff the canon step and saving work and the gates pass;
   * "failed_validation", with the gate errors, iff they work and the gates fail; "error" iff the
   * canon step raises or saving fails, with that message as the last error.
   */
  lemma RunStatus(card: ScopeCard, canon: Result<Canon, string>, overlay: Overlay, skill: string,
                  report: Validators.Report, save: Result<string, string>)
    ensures var r := RunFrom(card, canon, overlay, skill, report, save);
      && r.status != Generating
      && r.steps.scopeCard == Some(card)
      && (r.status == ErrorStatus <==> canon.Err? || save.Err?)
      && (r.status == Success <==> canon.Ok? && save.Ok? && report.passed)
      && (r.status == FailedValidation <==> canon.Ok? && save.Ok? && !report.passed)
      && (r.status == FailedValidation ==> r.errors == report.errors)
      && (r.status == Success ==> r.errors == [] && r.artifacts == [save.value])
      && (canon.Err? ==> r.errors == [canon.error] && r.steps.canon.None? && r.validation.None?)
      && (canon.Ok? && save.Err? ==> r.errors != [] && Last(r.errors) == save.error)
      && (canon.Ok? ==> r.validation == Some(report) && r.steps.skillMd == Some(skill))
  {
  }

  /**
   * Without a notebook every run ends as an error carrying the NameError of the
   * offline generator, setting aside the `asdict` TypeErrors the model leaves out.
   */
  lemma OfflineRunFails(card: ScopeCard, created: Option<string>, query: (string, string) -> Option<string>,
                        overlay: Overlay, skill: string, report: Validators.Report, save: Result<string, string>)
    requires CanonCollection.Falsy(created)
    ensures var r := RunFrom(card, CanonOf(card, created, query), overlay, skill, report, save);
      r.status == ErrorStatus && r.errors == [CanonCollection.UnboundItem] && r.steps.skillMd.None?
  {
    CanonCollection.OfflineAlwaysRaises(card);
  }

  /**
   * With a notebook, a run whose texts contain no capital Q never succeeds: the compiled
   * document always fails the quickstart gate.
   */
  lemma OnlineRunNeverSucceeds(card: ScopeCard, created: Option<string>, query: (string, string) -> Option<string>,
                               overlay: Overlay, save: Result<string, string>)
    requires !CanonCollection.Falsy(created)
    requires Findings.NoCapitalQ(card, CanonCollection.OnlineCanon(query, created.value, card), overlay)
    ensures var skill := Compiler.CompiledDocument(card, CanonCollection.OnlineCanon(query, created.value, card), overlay);
      RunFrom(card, CanonOf(card, created, query), overlay, skill, Validators.ReportOf(skill), save).status != Success
  {
    var canon := CanonCollection.OnlineCanon(query, created.value, card);
    Findings.CompiledReportFails(card, canon, overlay);
    var skill := Compiler.CompiledDocument(card, canon, overlay);
    RunStatus(card, CanonOf(card, created, query), overlay, skill, Validators.ReportOf(skill), save);
  }
}
