/**
 * The records passed between the pipeline's steps, one datatype per entity,
 * and the six scope-card rules shared by the engine and the builder.
 */
module Records {
  import opened Wrappers
  import opened Text

  /** Step 1 output. A goal or output form that is absent is the empty string. */
  datatype ScopeCard = ScopeCard(
    goal: string,
    triggerWords: seq<string>,
    mustCover: seq<string>,
    mustNotCover: seq<string>,
    outputForm: string,
    successCriteria: seq<string>)

  datatype Source = Source(title: string, url: string, relevance: string)

  datatype Template = Template(name: string, content: string)

  datatype FailureMode = FailureMode(symptom: string, fix: string)

  /** Step 3 output: the external best practices. */
  datatype Canon = Canon(
    notebookId: Option<string>,
    sources: seq<Source>,
    quickstart: string,
    decisionPoints: seq<string>,
    templates: seq<Template>,
    failureModes: seq<FailureMode>,
    edgeCases: seq<string>)

  datatype OutputFormat = OutputFormat(description: string, example: string)

  /** Step 5 output: the user's and organisation's constraints. */
  datatype Overlay = Overlay(
    compliance: Option<string>,
    requiredTools: seq<string>,
    forbiddenTools: seq<string>,
    outputFormat: Option<OutputFormat>,
    priority: string,
    failureHistory: seq<string>)

  /** The six checks a scope card must pass, in the order both validators apply them. */
  datatype ScopeRule = GoalLength | TriggerCount | MustCoverCount | MustNotCoverCount | OutputFormGiven | CriteriaGiven

  predicate Holds(rule: ScopeRule, card: ScopeCard) {
    match rule
    case GoalLength => |Strip(card.goal)| >= 10
    case TriggerCount => |card.triggerWords| >= 5
    case MustCoverCount => |card.mustCover| >= 3
    case MustNotCoverCount => |card.mustNotCover| >= 3
    case OutputFormGiven => card.outputForm != ""
    case CriteriaGiven => |card.successCriteria| >= 1
  }

  /** The card meets all six rules. */
  predicate Complete(card: ScopeCard) {
    Holds(GoalLength, card) && Holds(TriggerCount, card) && Holds(MustCoverCount, card) &&
    Holds(MustNotCoverCount, card) && Holds(OutputFormGiven, card) && Holds(CriteriaGiven, card)
  }
}
