# SkillForge core, modelled in Dafny

SkillForge turns a one-line request ("make a skill for X") into a `SKILL.md` document. The request goes through six steps and then a set of quality gates:

1. The scope card builder fixes the goal, the trigger phrases, what the skill must and must not cover, the output form and the success criteria.
2. The engine sorts the card into a "degrees of freedom" tier (low, medium or high) and suggests resources for it.
3. The NotebookLM integration collects an external canon: quick-start steps, decision points, templates, failure modes and edge cases. It falls back to an offline generator when there is no notebook.
4. The engine extracts the contract from the canon.
5. The user interview collects the local overlay: compliance rules, required and forbidden tools, output format, priority and failure history.
6. The compiler renders the card, the canon and the overlay into a markdown document.

Seven quality gates then judge the document. The five content gates are required; the brittleness and size gates only warn.

The model follows the program's structure, one module per source file:

| module | file | form |
|---|---|---|
| `ScopeBuilder` | `scripts/scope_card_builder.py` | class `ScopeCardBuilder` over a `card` field, with functions that specify each step |
| `Interview` | `scripts/user_interview.py` | the question table as a datatype and parsers, and the questionnaire loops as methods |
| `CanonCollection` | `scripts/notebooklm_integration.py` | class `NotebookIntegration` over `notebookId`, with the offline generators as functions |
| `Compiler` | `scripts/skill_compiler.py` | the section builders that loop as methods, each proved equal to a function that specifies its section |
| `CompilerProperties` | `scripts/skill_compiler.py` | lemmas about the compiled sections: line layout, fences, markers, the skill name |
| `Validators` | `scripts/validators.py` | the seven gates as functions, and class `SkillValidator` whose `ValidateSkill` loop folds them into a report |
| `Engine` | `scripts/skillforge_engine.py` | tiering, resources, the contract, and `GenerateSkill`, which chains the steps and sets the status |
| `Findings` | all of them | what the compiler's output does to the gates |
| `Text`, `Records`, `Wrappers` | shared | Python's string built-ins on ASCII, the records passed between steps, and `Option`/`Result` |

Console input is modelled as a stream `input: nat -> string`, read from an index `at`. Every method that reads answers returns the index of the next unread answer. The notebook calls are parameters: `created: Option<string>` is what notebook creation returned, and `query(notebook, question)` is what a query returned. Saving the artifacts is a parameter `save: Result<string, string>`.

## Model

| member | source | states |
|---|---|---|
| ScopeBuilder.CommaItems | scripts/scope_card_builder.py:79 | the comma-separated items of an answer are non-empty, already stripped and comma-free |
| ScopeBuilder.CommaRoundTrip | scripts/scope_card_builder.py:79 | stripped, non-empty, comma-free items joined with commas are read back unchanged |
| ScopeBuilder.CommaItemsBlank | scripts/scope_card_builder.py:79 | an all-whitespace answer yields no items |
| ScopeBuilder.BuilderErrors | scripts/scope_card_builder.py:180-202 | `_validate` has at most six messages, and none exactly when the card meets all six rules |
| ScopeBuilder.ScopeCardBuilder.Validate | scripts/scope_card_builder.py:180-202 | returns `BuilderErrors(card)`, valid exactly when the card is complete |
| ScopeBuilder.RouteGoal | scripts/scope_card_builder.py:166-169 | the goal message is routed to the goal re-prompt |
| ScopeBuilder.RouteTrigger | scripts/scope_card_builder.py:151-154 | the trigger message ("trigger phrases") never matches "trigger_words", so it is routed nowhere |
| ScopeBuilder.RouteMustCover | scripts/scope_card_builder.py:156-159 | the must_cover count message is routed to the must_cover re-prompt |
| ScopeBuilder.RouteMustNotCover | scripts/scope_card_builder.py:156-164 | the must_not_cover message is not caught by the must_cover test and reaches its own re-prompt |
| ScopeBuilder.RouteOutput | scripts/scope_card_builder.py:150-169 | the output-form message matches no branch |
| ScopeBuilder.RouteCriteria | scripts/scope_card_builder.py:150-169 | the success-criteria message matches no branch |
| ScopeBuilder.RouteOfMessage | scripts/scope_card_builder.py:150-169 | over all six rules, only the goal, must_cover and must_not_cover messages are re-prompted |
| ScopeBuilder.FixGoal | scripts/scope_card_builder.py:166-169 | a broken goal rule reads one answer and stores it stripped; a kept rule reads nothing |
| ScopeBuilder.FixMustCover | scripts/scope_card_builder.py:156-159 | a broken must_cover rule reads one answer and stores its items, not capped at ten |
| ScopeBuilder.FixMustNotCover | scripts/scope_card_builder.py:161-164 | the same for must_not_cover |
| ScopeBuilder.FixSkipped | scripts/scope_card_builder.py:150-169 | trigger, output-form and criteria messages change nothing and read nothing |
| ScopeBuilder.FixValidateErrors | scripts/scope_card_builder.py:146-178 | repairing the card's own error list equals the closed form `Reprompted` |
| ScopeBuilder.RepromptedSteps | scripts/scope_card_builder.py:146-178 | the repair reads at most three answers, in the order goal, must_cover, must_not_cover |
| ScopeBuilder.ScopeCardBuilder.FixErrors | scripts/scope_card_builder.py:146-178 | the loop leaves the card and the next answer index that `FixAll` specifies; the re-validation only reports |
| ScopeBuilder.RequestCardErrors | scripts/scope_card_builder.py:122-144 | a card built from the request alone breaks only the goal rule, exactly when the stripped request is shorter than 10 |
| ScopeBuilder.ScopeCardBuilder.BuildFromRequest | scripts/scope_card_builder.py:122-144 | the card becomes the request with five derived triggers and fixed defaults |
| ScopeBuilder.AnsweredShape | scripts/scope_card_builder.py:63-108 | a blank goal answer keeps the request; a blank output form becomes "template"; the lists are capped at ten, except the criteria |
| ScopeBuilder.BlankAnswersStayInvalid | scripts/scope_card_builder.py:55-120 | with every answer blank, the interactive card is still incomplete after the repair pass |
| ScopeBuilder.ScopeCardBuilder.BuildInteractive | scripts/scope_card_builder.py:55-120 | six answers, then one repair pass when the card is invalid; the card and next index are those specified |
| ScopeBuilder.ScopeCardBuilder.Build | scripts/scope_card_builder.py:37-53 | dispatches to the interactive or the request-only build |
| ScopeBuilder.ScopeCardBuilder.constructor | scripts/scope_card_builder.py:24-35 | starts from the empty template card |
| Interview.FailureLines | scripts/user_interview.py:55 | failure points are at most three stripped, non-empty lines |
| Interview.PriorityOf | scripts/user_interview.py:49 | the priority is stripped and lower-cased, and empty exactly when the answer is blank |
| Interview.ParseFormat | scripts/user_interview.py:146-157 | none for a missing or empty format; otherwise the text with the fixed example |
| Interview.DefaultUnknown | scripts/user_interview.py:120-129 | an id outside the five questions has no default |
| Interview.ParseEmptyIsDefault | scripts/user_interview.py:23-57 | every parser maps the empty answer to that question's default |
| Interview.IdsDistinct | scripts/user_interview.py:23-57 | the five question ids are distinct |
| Interview.ForbiddenWithoutMarker | scripts/user_interview.py:36 | without "Cannot use:", the forbidden tools are every stripped comma piece of the answer |
| Interview.ForbiddenAfterMarker | scripts/user_interview.py:36 | with the marker, they are the comma pieces after its last occurrence |
| Interview.ToolsLayout | scripts/user_interview.py:34-37 | for "Must use: a,b Cannot use: c", the required tools are the words of `a` only and the forbidden ones are the pieces of `c` |
| Interview.ToolsExample | scripts/user_interview.py:33-37 | the question's own example gives required ["PostgreSQL"] and forbidden ["AWS", "JavaScript"] |
| Interview.InterviewInteractive | scripts/user_interview.py:81-108 | reads five answers; blank ones take the default; the overlay is the structured answers |
| Interview.InterviewDefaults | scripts/user_interview.py:110-118 | the overlay of all defaults |
| Interview.Conduct | scripts/user_interview.py:63-79 | interactive runs read five answers; the other path reads none and gives the default overlay |
| Interview.DefaultsOverlay | scripts/user_interview.py:110-144 | structuring the five defaults gives the default overlay |
| Interview.BlankMatchesDefaults | scripts/user_interview.py:91-103 | blank answers record exactly the defaults, question by question |
| Interview.BlankInterview | scripts/user_interview.py:81-118 | an interview answered with blanks gives the same overlay as the non-interactive path |
| CanonCollection.OfflineQuickstartLines | scripts/notebooklm_integration.py:212-219 | the offline quick start is three lines; the second names the first two must_cover items or "your use case" |
| CanonCollection.DecisionsOf | scripts/notebooklm_integration.py:221-225 | one "Is … applicable to your case?" question per item |
| CanonCollection.OfflineDecisions | scripts/notebooklm_integration.py:221-225 | one question for each of the first five must_cover items |
| CanonCollection.TemplatesOf | scripts/notebooklm_integration.py:227-235 | one named template with an example per item |
| CanonCollection.OfflineTemplates | scripts/notebooklm_integration.py:227-235 | templates for the first three must_cover items, named and filled after the item |
| CanonCollection.OfflineModesFixed | scripts/notebooklm_integration.py:237-260 | five failure modes, the same for every goal |
| CanonCollection.OfflineCanonWith | scripts/notebooklm_integration.py:185-210 | if the edge cases were computed, the offline canon would have no notebook id, two sources, and the generated lists |
| CanonCollection.OfflineCanon | scripts/notebooklm_integration.py:185-210 | any successful offline canon has no notebook id and two sources |
| CanonCollection.OfflineAlwaysRaises | scripts/notebooklm_integration.py:185-268 | offline generation raises the NameError for every scope card |
| CanonCollection.NumberedTemplates | scripts/notebooklm_integration.py:53 | the templates parser names the i-th line "Template i+1" |
| CanonCollection.OnlineTemplates | scripts/notebooklm_integration.py:50-54 | a non-empty answer gives at most three templates, numbered from 1 |
| CanonCollection.FallbackKinds | scripts/notebooklm_integration.py:270-279 | each category's fallback has the kind that category's parser produces |
| CanonCollection.ExtractSources | scripts/notebooklm_integration.py:299-312 | two internal primary sources, whatever the card |
| CanonCollection.EntryQuickstart | scripts/notebooklm_integration.py:105-110 | a quick-start answer, or its absence, is stored as its lines |
| CanonCollection.EntryDecision | scripts/notebooklm_integration.py:105-110 | likewise for decision points |
| CanonCollection.EntryTemplates | scripts/notebooklm_integration.py:105-110 | likewise for templates |
| CanonCollection.EntryFailure | scripts/notebooklm_integration.py:105-110 | likewise for failure modes |
| CanonCollection.EntryEdge | scripts/notebooklm_integration.py:105-110 | likewise for edge cases |
| CanonCollection.FieldsOf | scripts/notebooklm_integration.py:113-121 | the canon is structured from the five stored entries, with the quick-start lines newline-joined |
| CanonCollection.FillStep | scripts/notebooklm_integration.py:102-110 | one loop iteration stores the next category's entry |
| CanonCollection.FilledAt | scripts/notebooklm_integration.py:102-110 | after the loop, each category holds the entry made from its own answer |
| CanonCollection.StructureComplete | scripts/notebooklm_integration.py:102-121 | the canon built after the loop is the specified online canon |
| CanonCollection.QuickstartLinesFree | scripts/notebooklm_integration.py:43 | the quick-start parser keeps one to three newline-free lines |
| CanonCollection.OnlineQuickstartLines | scripts/notebooklm_integration.py:102-121 | the online quick start splits back into the lines it was joined from, at most three |
| CanonCollection.KeysDistinct | scripts/notebooklm_integration.py:39-65 | the five categories have distinct keys |
| CanonCollection.CategoriesDistinct | scripts/notebooklm_integration.py:39-65 | the question list names each category once |
| CanonCollection.NotebookIntegration.constructor | scripts/notebooklm_integration.py:67-75 | starts without a notebook id |
| CanonCollection.NotebookIntegration.CollectCanon | scripts/notebooklm_integration.py:77-129 | stores the created id; without one, raises the offline NameError; with one, returns the online canon |
| Compiler.KeptWords | scripts/skill_compiler.py:116-117 | every kept word is an alphanumeric non-stop-word of the input, and there are no more of them than input words |
| Compiler.KeptWordsComplete | scripts/skill_compiler.py:116-117 | every alphanumeric non-stop-word of the input is kept, as often as it occurs |
| Compiler.KeptWordsInOrder | scripts/skill_compiler.py:116-117 | the kept words are a subsequence of the input: its order is kept |
| Compiler.NameTokens | scripts/skill_compiler.py:110-118 | at most three lower-case alphanumeric non-stop-words |
| CompilerProperties.SanitizeSplits | scripts/skill_compiler.py:110-118 | splitting the skill name at '-' gives back its tokens |
| CompilerProperties.SanitizeWords | scripts/skill_compiler.py:110-118 | for space-separated words, the name is the first three kept lower-cased words joined by '-' |
| CompilerProperties.SanitizeExample | scripts/skill_compiler.py:113 | "Create a skill for Python linting" is named "python-linting", as the comment promises |
| CompilerProperties.DescriptionPrefix | scripts/skill_compiler.py:120-132 | the short description starts with the goal-and-triggers text, and nothing else follows without required tools |
| CompilerProperties.DescriptionUses | scripts/skill_compiler.py:129-132 | when tools are required and the whole text fits in 200 characters, " Uses:" appears in the short description |
| CompilerProperties.UsesOnlyWithTools | scripts/skill_compiler.py:126-132 | when neither the goal nor the first three triggers spell "Uses:", " Uses:" appears in the short description only if tools are required |
| Compiler.PriorityText | scripts/skill_compiler.py:152-174 | every priority, known or not, has a non-empty description |
| Compiler.QuickstartSteps | scripts/skill_compiler.py:182 | the three placeholder steps for an empty quick start; otherwise the text's first min(3, line count) lines, in order |
| Compiler.CompileQuickstart | scripts/skill_compiler.py:176-188 | the loop builds the specified quick-start section |
| CompilerProperties.QuickstartLines | scripts/skill_compiler.py:176-188 | the section's lines are the heading, a blank line, the numbered steps and two empty lines |
| Compiler.CompileWorkflow | scripts/skill_compiler.py:190-215 | the loops build the specified workflow section |
| Compiler.CompileTemplates | scripts/skill_compiler.py:236-251 | the loop builds the specified templates section |
| CompilerProperties.BlocksFences | scripts/skill_compiler.py:244-247 | each template block adds at least two fences, exactly two with backtick-free texts |
| CompilerProperties.CanonTemplatesFences | scripts/skill_compiler.py:243-247 | with canon templates, the section has at least two fences per template shown (at most five) |
| CompilerProperties.DefaultTemplateFences | scripts/skill_compiler.py:248-249 | the placeholder template gives exactly two fences |
| CompilerProperties.TemplatesFences | scripts/skill_compiler.py:236-251 | every templates section holds at least two fences, with the exact count for backtick-free templates |
| Compiler.CompileFailureModes | scripts/skill_compiler.py:253-279 | the loops build the specified failure-modes section |
| CompilerProperties.ModesCount | scripts/skill_compiler.py:262-267 | colon-free modes hold one "**Symptom**:" and one "**Fix**:" label each |
| CompilerProperties.ModesBodyCount | scripts/skill_compiler.py:261-270 | with colon-free symptoms and fixes, one label of each kind per mode shown, at most five, or one for the placeholder |
| CompilerProperties.FailureModesPairs | scripts/skill_compiler.py:253-279 | with colon-free modes and history lines, the whole section, history included, holds that many labels of each kind |
| CompilerProperties.HistoryLines | scripts/skill_compiler.py:272-277 | for a non-empty, newline-free failure history, the block is its heading, a blank line and at most three bullets |
| Compiler.CompileEdgeCases | scripts/skill_compiler.py:281-303 | the loops build the specified edge-cases section |
| CompilerProperties.EdgeBodyLines | scripts/skill_compiler.py:289-296 | up to five canon edge cases, or the three defaults, one per line |
| CompilerProperties.OutOfScopeSplit | scripts/skill_compiler.py:298-301 | for newline-free must_not_cover items, the out-of-scope block appears only when there are some, showing at most three |
| CompilerProperties.EdgeCasesLines | scripts/skill_compiler.py:281-303 | for newline-free edge cases and must_not_cover items, the section's lines: heading, blank, edge items, the out-of-scope lines, two empty lines |
| Compiler.Present | scripts/skill_compiler.py:342-344 | only sections present in the map are kept, never more than the order lists |
| Compiler.PresentAllKeys | scripts/skill_compiler.py:342-344 | with every name present, all sections appear in the given order |
| Compiler.Assemble | scripts/skill_compiler.py:325-351 | the frontmatter and the present sections, newline-joined and collapsed |
| Text.CollapseNoTriple | scripts/skill_compiler.py:349 | the collapsed text has no three newlines in a row |
| Text.CollapseIdempotent | scripts/skill_compiler.py:349 | collapsing twice is collapsing once |
| Text.CollapseKeepsText | scripts/skill_compiler.py:349 | collapsing deletes only newlines: the other characters stay, in order |
| Compiler.DocumentParts | scripts/skill_compiler.py:74-87 | the frontmatter and nine sections: ten parts |
| Compiler.PresentSections | scripts/skill_compiler.py:329-344 | a full section map is laid out in document order |
| CompilerProperties.AssembleOrder | scripts/skill_compiler.py:329-344 | a map with all nine names lays them out after the frontmatter in the fixed order |
| Compiler.Compile | scripts/skill_compiler.py:57-96 | builds every section, then assembles the specified document |
| Compiler.CompileParts | scripts/skill_compiler.py:77-87 | the map compile builds yields the ten parts in order |
| CompilerProperties.DocumentShape | scripts/skill_compiler.py:345-351 | the document has no triple newline and is unchanged by a second collapse; only newlines were dropped from the joined parts |
| Compiler.DetectConflicts | scripts/skill_compiler.py:353-373 | never reports a conflict |
| Compiler.MissingHeadings | scripts/skill_compiler.py:395-397 | no message exactly when every required heading is present |
| Compiler.CompilationErrorsEmpty | scripts/skill_compiler.py:375-408 | accepted exactly when at most 600 lines, all five headings, two fences and six bold markers |
| Compiler.ValidateCompilation | scripts/skill_compiler.py:375-408 | the loop returns those errors; valid exactly when there are none |
| Text.Strip | scripts/scope_card_builder.py:67 | empty exactly for all-whitespace input, no whitespace at either end, no character that is not in the input |
| Text.StripInfix | scripts/scope_card_builder.py:67 | the result is an infix `s[a..e]` with only whitespace before `a` and after `e`: only whitespace is cut, and only from the ends |
| Text.StripIdempotent | scripts/validators.py:203 | stripping twice is stripping once |
| Text.SplitJoin | scripts/notebooklm_integration.py:115 | splitting a join of separator-free pieces gives the pieces back |
| Text.Lower | scripts/skill_compiler.py:114 | same length, no capitals, character by character |
| Text.Words | scripts/skill_compiler.py:114 | the whitespace-split words are non-empty and space-free |
| Text.FindFrom | scripts/validators.py:173 | the leftmost occurrence at or after a start, or none at all |
| Text.CountConcat | scripts/validators.py:226 | counts of non-overlapping matches add up across a junction no match can straddle |
| Validators.FrontmatterOf | scripts/validators.py:162 | the lazy group of `^---\n(.*?)\n---`: up to the first "\n---" after the opening, or none |
| Validators.DescriptionValue | scripts/validators.py:173-176 | the description is one non-empty line; none when the key is missing or only newlines follow it |
| Validators.DescriptionGate | scripts/validators.py:157-184 | the issues loop returns the gate's outcome |
| Validators.DescriptionPasses | scripts/validators.py:157-184 | gate 1 passes exactly with frontmatter, a name and a description of 50 or more characters |
| SectionLayout.OverviewLayout | scripts/skill_compiler.py:134-150 | for newline-free texts, the Overview splits into its title, the purpose line and three labelled lists, each opening with "- " so that a first item reads "- - item" |
| SectionLayout.OverviewCounts | scripts/skill_compiler.py:142-149 | the lists show at most three must_cover items, three triggers and two must_not_cover items, each list at least one line; the first "does" line is "- - " and the first item, or "- " alone |
| SectionLayout.WhenToUseLayout | scripts/skill_compiler.py:152-174 | for newline-free tool names, the title, then a line and a blank line for each of required tools, forbidden tools and priority that is set, in that order |
| SectionLayout.WorkflowLayout | scripts/skill_compiler.py:190-215 | for newline-free decision points and format texts, the title, the decision lines, the output-format lines and a closing blank line |
| SectionLayout.WorkflowCounts | scripts/skill_compiler.py:198-213 | at most five decision points, each "- point" in the canon's order, else the three default steps; a set format adds five lines, its description before its example |
| SectionLayout.GuardrailsLayout | scripts/skill_compiler.py:217-234 | for newline-free items, the title, up to three must_cover bullets under the can-do heading, up to three must_not_cover bullets under the cannot-do heading, then the compliance text's lines when it is set; an empty list still leaves one empty line |
| SectionLayout.ReferencesLayout | scripts/skill_compiler.py:305-323 | the References section is sixteen fixed lines and a final newline |
| SectionLayout.NamePlain | scripts/skill_compiler.py:110-118 | the skill name holds no colon and no newline |
| SectionLayout.ShortPlain | scripts/skill_compiler.py:120-132 | for newline-free goal, triggers and tools, the short description is one non-empty line opening with the goal's first character, or with "." for an empty goal |
| SectionLayout.FrontBlockFixed | scripts/skill_compiler.py:345-349 | a frontmatter block with newline-free fields is left unchanged by the newline collapse |
| SectionLayout.CompiledOpens | scripts/skill_compiler.py:98-108 | for a newline-free name and description, the compiled document opens with the whole frontmatter block, closing "---" included |
| SectionLayout.FrontmatterRead | scripts/validators.py:162 | gate 1's frontmatter pattern captures exactly the name and description lines of such a block, whatever follows it |
| SectionLayout.DescriptionRead | scripts/validators.py:168-176 | with a colon-free name and a description not opening with whitespace, gate 1 finds the name and reads back the description unchanged |
| SectionLayout.DescriptionGateOnCompiled | scripts/validators.py:157-184 | when the goal, the first three triggers and the first two required tools are newline-free and the goal does not open with whitespace, gate 1 reads back the short description of every compiled document and passes exactly when it has 50 or more characters |
| Validators.FirstQuickHeading | scripts/validators.py:198 | the leftmost `## Quick[Ss]tart\n\n`, or none |
| Validators.BodyAfter | scripts/validators.py:198 | the lazy body up to the first "\n## " or the appended "\nZ" |
| Validators.BodyFound | scripts/validators.py:198 | behind a heading inside the document, the sentinel always ends the body |
| Validators.SubHeadingContinues | scripts/validators.py:198 | a "### " sub-heading does not end the body |
| Validators.QuickBodyNone | scripts/validators.py:198-200 | without "## QuickS"/"## Quicks" the pattern finds no body |
| Validators.QuickstartOutcome | scripts/validators.py:192-210 | gate 2 passes exactly with a heading, a body and at most five non-blank lines; a heading with no body gives "Quickstart section empty" |
| Validators.TemplatesMatchIff | scripts/validators.py:220 | the pattern matches exactly when a blank line follows a "## Templates" heading |
| Validators.TemplatesOutcome | scripts/validators.py:218-233 | gate 3 passes exactly with that match and two or more fences |
| Validators.MarkersZero | scripts/validators.py:248 | the marker count is zero exactly when no marker occurs |
| Validators.FailureModesOutcome | scripts/validators.py:241-259 | gate 4 passes exactly with a "## Failure" heading, five markers and a fix mention |
| Validators.EdgeCasesOutcome | scripts/validators.py:267-285 | gate 5 passes exactly with a heading, a body and three dash lines in it |
| Validators.BrittlenessOutcome | scripts/validators.py:293-306 | passes exactly with "scripts/" or "## Guardrails" |
| Validators.SizeOutcome | scripts/validators.py:314-327 | passes exactly at 500 lines or fewer, with the two recommendations above 500 and above 600 |
| Validators.GateCategory | scripts/validators.py:49-59 | the five content gates are mandatory, the last two recommended |
| Validators.ReportFrom | scripts/validators.py:61-109 | one gate entry per gate |
| Validators.ReportGates | scripts/validators.py:83-105 | the entries are the gates' results, in gate order |
| Validators.ReportPassed | scripts/validators.py:83-105 | the report passes exactly when every required gate passes |
| Validators.ReportPassedNoErrors | scripts/validators.py:83-105 | the report passes exactly when it has no errors |
| Validators.ReportLists | scripts/validators.py:83-105 | errors, warnings and recommendations are the gates', in order |
| Validators.ReportOfShape | scripts/validators.py:49-109 | the fixed gate list yields seven entries, named in order |
| Validators.ReportOfPassed | scripts/validators.py:49-109 | a document passes exactly when every required gate passes on it |
| Validators.ReportOfContent | scripts/validators.py:49-109 | the five content gates decide; brittleness and size do not |
| Validators.PassedOfAll | scripts/validators.py:49-109 | the same for any gate evaluation |
| Validators.SkillValidator.constructor | scripts/validators.py:49-59 | the gate list is the seven gates in order |
| Validators.SkillValidator.ValidateSkill | scripts/validators.py:61-109 | the loop returns the report of the gates on the document |
| Engine.CardErrors | scripts/skillforge_engine.py:38-60 | at most six messages, none exactly when the card is complete |
| Engine.ValidateCard | scripts/skillforge_engine.py:38-60 | returns those messages; valid exactly when the card is complete |
| Engine.SameVerdict | scripts/skillforge_engine.py:38-60 | the engine and the builder reject the same cards with as many messages |
| Engine.Tier | scripts/skillforge_engine.py:246-259 | low, medium or high exactly under the source's thresholds |
| Engine.TierMonotone | scripts/skillforge_engine.py:249-259 | with the same trigger count, more items never lower the tier |
| Engine.ValidCardTier | scripts/skillforge_engine.py:249-259 | a valid card is low only at exactly six items and five triggers |
| Engine.TierTexts | scripts/skillforge_engine.py:249-281 | each tier has its own rationale and its own guidance |
| Engine.ScriptCount | scripts/skillforge_engine.py:271 | one script exactly for the low tier |
| Engine.ReferenceDocs | scripts/skillforge_engine.py:283-291 | the loop returns the specified documents |
| Engine.ReferenceDocsShape | scripts/skillforge_engine.py:283-291 | one to three documents, failure modes last, templates exactly with a template output, edge cases exactly with exclusions |
| Engine.DegreesOfFreedom | scripts/skillforge_engine.py:246-281 | the tier, its rationale and the suggested resources |
| Engine.ContractVerbatim | scripts/skillforge_engine.py:297-305 | the contract with the id and sources rebuilds the canon: nothing is altered |
| Engine.ScopeStep | scripts/skillforge_engine.py:242-244 | step 1's card and the next answer index |
| Engine.CanonStep | scripts/skillforge_engine.py:293-295 | step 3's canon or its error |
| Engine.CompileStep | scripts/skillforge_engine.py:311-313 | the compiled document and its report |
| Engine.Assemble | scripts/skillforge_engine.py:209-233 | the steps are recorded, then judged by the report, then saved |
| Engine.GenerateSkill | scripts/skillforge_engine.py:160-240 | chains the steps; the result is the closed form `RunFrom` of the step results |
| Engine.RunStatus | scripts/skillforge_engine.py:225-238 | error exactly when the canon or the save fails; success exactly when the report passes; errors carry the report's or the exception's |
| Engine.OfflineRunFails | scripts/skillforge_engine.py:160-240 | without a notebook every run ends as an error carrying the NameError (with the `asdict` TypeErrors of "## Left out" set aside) |
| Engine.OnlineRunNeverSucceeds | scripts/skillforge_engine.py:160-240 | for text without a capital Q, an online run never ends in success |
| Findings.QuickstartGateEmpty | scripts/validators.py:192-200 | on a compiled document without another capital Q, gate 2 says "Quickstart section empty" |
| Findings.CompiledReportFails | scripts/validators.py:61-109 | so no such compiled document passes validation |
| Findings.TemplatesGateAlwaysPasses | scripts/validators.py:218-233 | gate 3 passes on every compiled document |
| Findings.SectionLacksMarker | scripts/skill_compiler.py:262-279 | the compiled failure-modes section holds no spelling gate 4 counts |
| Findings.FailureModesUncounted | scripts/validators.py:248-252 | gate 4 counts zero markers in that section, so it fails on it |

## Left out

- Console I/O: each `input()` is one element of the answer stream, and the prompts and banners are not modelled.
- The `_print_summary`, `_print_interview_summary` and `print_report` functions are not modelled, because they only print.
- `save_to_file`, `load_from_file` and `_save_artifacts` are not modelled, because they do file and JSON I/O. The save outcome is the `save` parameter.
- The command-line `main` is left out; it only parses arguments and prints.
- `async`/`await`, the lazily created sub-engines and their dynamic imports are left out: the steps run in order.
- Timestamps (`created_at`) and logging are left out, including the size warning logged by `compile`.
- `_create_notebook`, `_query_notebook` and `_create_scope_document` are left out. The notebook stubs are replaced by the `created` and `query` parameters, and the scope document only feeds the notebook.
- `quick_interview` is left out; it merely calls `interview` with the defaults.
- The engine passes dictionaries where it expects dataclass attributes and calls `asdict` on dictionaries. The model uses one datatype per entity and leaves out the `TypeError`s this would raise. As written, step 1 already raises one: `asdict(scope_card)` at scripts/skillforge_engine.py:193 receives the builder's dictionary, so every run would end with that `TypeError` first.
- Conduct: in non-interactive mode, `interview` returns the un-awaited coroutine of `_interview_defaults` at scripts/user_interview.py:79. The model returns the default overlay.
- Raw answers whose Python type differs from what the structuring expects are replaced by defaults.
- Text is ASCII: there is no Unicode case mapping or whitespace. Each regular expression is modelled by a hand-written matcher for that one pattern.
- QuickstartGateEmpty, CompiledReportFails and OnlineRunNeverSucceeds assume that no card, canon or overlay text holds a capital 'Q', which is stronger than needed. A 'Q' elsewhere could only add a "## QuickS…" heading with a body if that text also spelled out the heading.
- FailureModesUncounted is stated for the failure-modes section, with colon-free symptoms, fixes and history, rather than for the whole document. Other sections can hold gate 4's spellings if the card or overlay texts do.
- SectionLacksMarker needs the same colon-free texts.
- Engine.TierTexts states only that the rationales and guidance texts differ between tiers; the texts themselves are constants in `Engine`.
- UsesOnlyWithTools: assumes that neither the goal nor the first three triggers spell "Uses:". Otherwise " Uses:" can appear without required tools, for example with the trigger "Uses: x".
- SectionLayout.OverviewLayout: states the layout only for newline-free goal and list items; an item with a newline adds lines the lemma does not describe.
- SectionLayout.WhenToUseLayout: states the layout only for newline-free tool names.
- SectionLayout.WorkflowLayout: states the layout only for newline-free decision points and output-format texts.
- SectionLayout.GuardrailsLayout: states the layout only for newline-free must_cover and must_not_cover items; the compliance text may hold newlines.
- SectionLayout.DescriptionGateOnCompiled: assumes a newline-free goal, triggers and tools, and a goal that does not open with whitespace. The gate skips whitespace after "description:", so such a goal would be read back shorter, and a newline would end the captured line early.

## Behaviours reproduced from the source

The model follows the code where it disagrees with its own comments and documentation:

- Gate 2 looks for `## Quick[Ss]tart`, but the compiler writes `## Quick Start`. Every compiled document whose texts hold no other capital Q fails with "Quickstart section empty", so such a run never succeeds (`Findings.QuickstartGateEmpty`, `Findings.CompiledReportFails`, `Engine.OnlineRunNeverSucceeds`).
- Gate 4 counts `**Symptom:`, `**Failure:` and `**Issue:`, but the compiler writes `**Symptom**:`. The compiled failure modes are never counted (`Findings.FailureModesUncounted`).
- Gate 3 passes on every compiled document, because the compiler always writes a templates heading and at least one fenced block (`Findings.TemplatesGateAlwaysPasses`).
- `_generate_edge_cases` uses `item` outside its comprehension, so offline generation always raises a `NameError`. A run without a notebook therefore always ends with status "error" (`CanonCollection.OfflineAlwaysRaises`, `Engine.OfflineRunFails`).
- `detect_conflicts` never reports anything (`Compiler.DetectConflicts`).
- `_fix_errors` tests for "trigger_words", but the trigger message says "trigger phrases". The builder therefore never re-prompts for triggers, output form or criteria (`ScopeBuilder.RouteOfMessage`, `ScopeBuilder.FixSkipped`).
- The required-tools parser keeps only the words before the first comma, so "Must use: PostgreSQL, Python" requires only PostgreSQL (`Interview.ToolsExample`).
- The engine's `ScopeCard.validate` and the builder's `_validate` word the trigger message differently ("trigger words", "trigger phrases"). They reject the same cards (`Engine.SameVerdict`).
