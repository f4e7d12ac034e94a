/**
 * How the validator's gates judge the compiler's own output. Three of the
 * source's behaviours follow from the two components disagreeing on markup:
 *
 *  - the templates gate passes on every compiled document;
 *  - the quickstart gate looks for "## Quickstart" or "## QuickStart" while the
 *    compiler writes "## Quick Start", so it reports an empty section and the
 *    whole report fails;
 *  - the failure-modes gate counts "**Symptom:" while the compiler writes
 *    "**Symptom**:", so it counts none of the compiled failure modes.
 *
 * These are stated about the model as written; nothing here corrects them.
 */
module Findings {
  import opened Wrappers
  import opened Text
  import opened Records
  import opened Compiler
  import opened CompilerProperties
  import opened Validators

  // ---------------------------------------------------------------- splitting the joined document

  /** The join of ten parts around its i-th part. */
  lemma JoinAround(parts: seq<string>, i: nat)
    requires 0 < i < |parts| - 1
    ensures Join("\n", parts) == Join("\n", parts[..i]) + "\n" + parts[i] + "\n" + Join("\n", parts[i + 1..])
  {
    var nl := "\n";
    var before, after := parts[..i], parts[i + 1..];
    assert parts == before + parts[i..];
    assert parts[i..] == [parts[i]] + after;
    JoinAppend(nl, before, parts[i..]);
    JoinAppend(nl, [parts[i]], after);
    assert Join(nl, [parts[i]]) == parts[i];
    AppendAssoc(Join(nl, before) + nl, parts[i] + nl, Join(nl, after));
    AppendAssoc(Join(nl, before) + nl, parts[i], nl);
  }

  // ---------------------------------------------------------------- gate 3: templates

  /** The Templates section ends with a template block, after the heading and any earlier blocks. */
  lemma TemplatesTail(canon: Canon) returns (pre: string, t: Template)
    ensures TemplatesSection(canon) == "## Templates / Examples" + "\n\n" + pre + TemplateBlock(t)
    ensures pre == [] || pre[0] == '#'
  {
    assert TemplatesHeading == "## Templates / Examples" + "\n\n";
    if canon.templates != [] {
      var ts := Take(canon.templates, 5);
      pre := Blocks(ts[..|ts| - 1]);
      t := ts[|ts| - 1];
      if pre != [] {
        BlocksFirst(ts[..|ts| - 1]);
      }
    } else {
      pre := "";
      t := PlaceholderTemplate;
      PlaceholderBlock();
    }
  }

  /** A heading line after a newline and before a blank line survives the collapse. */
  lemma CollapseHeading(a: string, h: string, w: string)
    requires a != [] && a[|a| - 1] == '\n'
    requires h != [] && h[0] != '\n' && '\n' !in h
    requires w != [] && w[0] != '\n'
    ensures Collapse(a + (h + ("\n\n" + w))) == Collapse(a) + h + "\n\n" + Collapse(w)
  {
    CollapseSplit(a, h + ("\n\n" + w));
    CollapseSplit(h, "\n\n" + w);
    CollapsePlain(h);
    CollapseBlank(w);
  }

  /** A newline-free piece splits the collapse into the collapses on either side of it. */
  lemma CollapseAround(x: string, f: string, y: string)
    requires f != [] && '\n' !in f
    ensures Collapse(x + (f + y)) == Collapse(x) + f + Collapse(y)
  {
    assert f[0] in f && f[|f| - 1] in f;
    CollapseSplit(x, f + y);
    CollapseSplit(f, y);
    CollapsePlain(f);
  }

  /** Collapsing around two fences keeps both. */
  lemma CollapseFences(z: string, mid: string, post: string)
    ensures Collapse(z + ("```" + (mid + ("```" + post))))
         == Collapse(z) + "```" + Collapse(mid) + "```" + Collapse(post)
  {
    var f := "```";
    assert '\n' !in f;
    CollapseAround(z, f, mid + (f + post));
    CollapseAround(mid, f, post);
    AppendFive(Collapse(z), f, Collapse(mid), f, Collapse(post), "");
  }

  /** A template block regrouped around its two fences. */
  lemma BlockShape(pre: string, t: Template, r: string)
    ensures pre + TemplateBlock(t) + r
         == (pre + "### " + t.name + "\n\n") + ("```" + (("\n" + t.content + "\n") + ("```" + ("\n\n" + r))))
  {
  }

  /** Cutting the collapsed document at the templates heading and the last template's fences. */
  lemma FenceLayout(a: string, h: string, z: string, mid: string, post: string)
    returns (ca: string, cz: string, cm: string, cp: string)
    requires a != [] && a[|a| - 1] == '\n'
    requires h != [] && h[0] != '\n' && '\n' !in h
    requires z != [] && z[0] != '\n' && z[|z| - 1] == '\n'
    requires mid != [] && mid[0] == '\n' && mid[|mid| - 1] == '\n'
    requires post != [] && post[0] == '\n'
    ensures Collapse(a + (h + ("\n\n" + (z + ("```" + (mid + ("```" + post)))))))
         == ca + h + "\n\n" + cz + "```" + cm + "```" + cp
    ensures cz != [] && cz[|cz| - 1] == '\n'
    ensures cm != [] && cm[0] == '\n' && cm[|cm| - 1] == '\n'
    ensures cp != [] && cp[0] == '\n'
  {
    var w := z + ("```" + (mid + ("```" + post)));
    CollapseHeading(a, h, w);
    CollapseFences(z, mid, post);
    CollapseLast(z);
    CollapseFirst(mid);
    CollapseLast(mid);
    CollapseFirst(post);
    ca, cz, cm, cp := Collapse(a), Collapse(z), Collapse(mid), Collapse(post);
  }

  /** Two fences with newlines around them are two non-overlapping occurrences. */
  lemma TwoFences(x: string, cm: string, cp: string)
    requires x != [] && x[|x| - 1] == '\n'
    requires cm != [] && cm[0] == '\n' && cm[|cm| - 1] == '\n'
    requires cp != [] && cp[0] == '\n'
    ensures Count(x + "```" + cm + "```" + cp, "```") >= 2
  {
    assert x + "```" + cm + "```" + cp == x + ("```" + (cm + ("```" + cp)));
    CountConcat(x, "```" + (cm + ("```" + cp)), "```");
    CountConcat("```", cm + ("```" + cp), "```");
    CountConcat(cm, "```" + cp, "```");
    CountConcat("```", cp, "```");
    CountSelf("```");
  }

  /** The templates heading followed by a blank line is what the templates pattern needs. */
  lemma HeadingMatches(doc: string, ca: string, tail: string)
    requires doc == ca + "## Templates / Examples" + "\n\n" + tail
    ensures TemplatesMatch(doc)
  {
    var h := "## Templates / Examples";
    assert doc == ca + "## Templates" + (" / Examples" + "\n\n" + tail);
    OccursInfix(ca, "## Templates", " / Examples" + "\n\n" + tail);
    assert doc == (ca + h) + "\n\n" + tail;
    OccursInfix(ca + h, "\n\n", tail);
    assert OccursAt(doc, "## Templates", |ca|) && OccursAt(doc, "\n\n", |ca| + 23);
    TemplatesMatchIff(doc);
  }

  /** A templates heading followed by a blank line and two fences satisfies the templates gate. */
  lemma TemplatesGateOn(doc: string, ca: string, cz: string, cm: string, cp: string)
    requires doc == ca + "## Templates / Examples" + "\n\n" + cz + "```" + cm + "```" + cp
    requires cz != [] && cz[|cz| - 1] == '\n'
    requires cm != [] && cm[0] == '\n' && cm[|cm| - 1] == '\n'
    requires cp != [] && cp[0] == '\n'
    ensures TemplatesOutcome(doc).passed
  {
    TwoFences(ca + "## Templates / Examples" + "\n\n" + cz, cm, cp);
    HeadingMatches(doc, ca, cz + "```" + cm + "```" + cp);
  }

  /** The joined parts regrouped around the templates heading and the last template's fences. */
  lemma JoinedTemplatesShape(parts: seq<string>, pre: string, t: Template)
    returns (a: string, z: string, mid: string, post: string)
    requires |parts| == 10
    requires parts[6] == "## Templates / Examples" + "\n\n" + pre + TemplateBlock(t)
    requires pre == [] || pre[0] == '#'
    ensures Join("\n", parts) == a + ("## Templates / Examples" + ("\n\n" + (z + ("```" + (mid + ("```" + post))))))
    ensures a != [] && a[|a| - 1] == '\n'
    ensures z != [] && z[0] != '\n' && z[|z| - 1] == '\n'
    ensures mid != [] && mid[0] == '\n' && mid[|mid| - 1] == '\n'
    ensures post != [] && post[0] == '\n'
  {
    JoinAround(parts, 6);
    var j := Join("\n", parts[..6]);
    var jr := Join("\n", parts[7..]);
    a := j + "\n";
    var r := "\n" + jr;
    z := pre + "### " + t.name + "\n\n";
    mid := "\n" + t.content + "\n";
    post := "\n\n" + r;
    Regroup(j, "\n", "## Templates / Examples", "\n\n", pre, TemplateBlock(t), jr);
    BlockShape(pre, t, r);
    assert z[0] == '#';
  }

  lemma Regroup(j: string, nl: string, h: string, s: string, pre: string, tb: string, jr: string)
    ensures j + nl + (h + s + pre + tb) + nl + jr == (j + nl) + (h + (s + (pre + tb + (nl + jr))))
  {
  }

  /** Ten newline-joined parts whose seventh is a Templates section pass the templates gate once collapsed. */
  lemma JoinedTemplates(parts: seq<string>, pre: string, t: Template)
    requires |parts| == 10
    requires parts[6] == "## Templates / Examples" + "\n\n" + pre + TemplateBlock(t)
    requires pre == [] || pre[0] == '#'
    ensures TemplatesOutcome(Collapse(Join("\n", parts))).passed
  {
    var a, z, mid, post := JoinedTemplatesShape(parts, pre, t);
    var h := "## Templates / Examples";
    assert '\n' !in h;
    var ca, cz, cm, cp := FenceLayout(a, h, z, mid, post);
    TemplatesGateOn(Collapse(Join("\n", parts)), ca, cz, cm, cp);
  }

  /** Gate 3 passes on every compiled document, whatever the canon holds. */
  lemma TemplatesGateAlwaysPasses(card: ScopeCard, canon: Canon, overlay: Overlay)
    ensures TemplatesOutcome(CompiledDocument(card, canon, overlay)).passed
    ensures TemplatesMatch(CompiledDocument(card, canon, overlay))
    ensures Count(CompiledDocument(card, canon, overlay), "```") >= 2
  {
    var pre, t := TemplatesTail(canon);
    TemplatesPart(card, canon, overlay);
    JoinedTemplates(DocumentParts(card, canon, overlay), pre, t);
  }

  lemma TemplatesPart(card: ScopeCard, canon: Canon, overlay: Overlay)
    ensures DocumentParts(card, canon, overlay)[6] == TemplatesSection(canon)
  {
    PartsAre(card, canon, overlay);
  }

  // ---------------------------------------------------------------- gate 2: quick start

  /** No piece holds a capital Q. */
  predicate Free(xs: seq<string>) {
    forall k | 0 <= k < |xs| :: 'Q' !in xs[k]
  }

  /**
   * No input text holds a capital Q, so the only Q in a compiled document is the
   * one in the compiler's "## Quick Start" heading.
   */
  predicate NoCapitalQ(card: ScopeCard, canon: Canon, overlay: Overlay) {
    'Q' !in card.goal && Free(card.triggerWords) && Free(card.mustCover) && Free(card.mustNotCover)
    && 'Q' !in canon.quickstart && Free(canon.decisionPoints) && Free(canon.edgeCases)
    && (forall k | 0 <= k < |canon.templates| :: 'Q' !in canon.templates[k].name && 'Q' !in canon.templates[k].content)
    && (forall k | 0 <= k < |canon.failureModes| ::
          'Q' !in canon.failureModes[k].symptom && 'Q' !in canon.failureModes[k].fix)
    && (overlay.compliance.Some? ==> 'Q' !in overlay.compliance.value)
    && Free(overlay.requiredTools) && Free(overlay.forbiddenTools) && Free(overlay.failureHistory)
    && (overlay.outputFormat.Some? ==>
          'Q' !in overlay.outputFormat.value.description && 'Q' !in overlay.outputFormat.value.example)
  }

  lemma FreeTake(xs: seq<string>, n: nat)
    requires Free(xs)
    ensures Free(Take(xs, n))
  {
    assert forall k | 0 <= k < |Take(xs, n)| :: Take(xs, n)[k] == xs[k];
  }

  /** Bulleted items joined with newlines hold no Q when the items hold none. */
  lemma FreeBulletJoin(xs: seq<string>, n: nat)
    requires Free(xs)
    ensures 'Q' !in Join("\n", Bullets(Take(xs, n)))
    ensures 'Q' !in Lines(Bullets(Take(xs, n)))
  {
    FreeTake(xs, n);
    JoinAbsent('Q', "\n", Bullets(Take(xs, n)));
    LinesAbsent('Q', Bullets(Take(xs, n)));
  }

  lemma SanitizedFree(goal: string)
    ensures 'Q' !in SanitizeSkillName(goal)
  {
    var tokens := NameTokens(goal);
    forall k | 0 <= k < |tokens| ensures 'Q' !in tokens[k] {
      assert forall i | 0 <= i < |tokens[k]| :: tokens[k][i] != 'Q';
    }
    JoinAbsent('Q', "-", tokens);
  }

  lemma DescriptionShortFree(card: ScopeCard, overlay: Overlay)
    requires 'Q' !in card.goal && Free(card.triggerWords) && Free(overlay.requiredTools)
    ensures 'Q' !in DescriptionShort(card, overlay)
  {
    FreeTake(card.triggerWords, 3);
    JoinAbsent('Q', ", ", Take(card.triggerWords, 3));
    FreeTake(overlay.requiredTools, 2);
    JoinAbsent('Q', ", ", Take(overlay.requiredTools, 2));
    assert 'Q' !in ". " && 'Q' !in "Triggers: " && 'Q' !in "." && 'Q' !in " Uses: ";
    var long := DescriptionLong(card, overlay);
    assert 'Q' !in long;
    var d := DescriptionShort(card, overlay);
    assert forall k | 0 <= k < |d| :: d[k] == long[k];
  }

  lemma FrontmatterFree(card: ScopeCard, overlay: Overlay)
    requires 'Q' !in card.goal && Free(card.triggerWords) && Free(overlay.requiredTools)
    ensures 'Q' !in Frontmatter(card, overlay)
  {
    SanitizedFree(card.goal);
    DescriptionShortFree(card, overlay);
    assert 'Q' !in "---\nname: " && 'Q' !in "\ndescription: " && 'Q' !in "\n---\n";
  }

  lemma DescriptionFree(card: ScopeCard)
    requires 'Q' !in card.goal && Free(card.triggerWords) && Free(card.mustCover) && Free(card.mustNotCover)
    ensures 'Q' !in DescriptionSection(card)
  {
    FreeBulletJoin(card.mustCover, 3);
    FreeBulletJoin(card.triggerWords, 3);
    FreeBulletJoin(card.mustNotCover, 2);
    DescriptionShapeFree(card.goal, Join("\n", Bullets(Take(card.mustCover, 3))),
      Join("\n", Bullets(Take(card.triggerWords, 3))), Join("\n", Bullets(Take(card.mustNotCover, 2))));
  }

  lemma DescriptionShapeFree(goal: string, does: string, when: string, not: string)
    requires 'Q' !in goal && 'Q' !in does && 'Q' !in when && 'Q' !in not
    ensures 'Q' !in "## Overview\n\n" + "**Purpose**: " + goal + "\n\n"
      + "**What this skill does**:\n- " + does + "\n\n"
      + "**When to use this**:\n- " + when + "\n\n"
      + "**What this skill does NOT do**:\n- " + not + "\n"
  {
    assert 'Q' !in "## Overview\n\n" && 'Q' !in "**Purpose**: ";
    assert 'Q' !in "**What this skill does**:\n- ";
    assert 'Q' !in "**When to use this**:\n- ";
    assert 'Q' !in "**What this skill does NOT do**:\n- ";
  }

  lemma SpeedFree()
    ensures 'Q' !in SpeedPriority
  {
    assert 'Q' !in "Speed is most important";
    assert 'Q' !in " - get fast results even if imperfect";
  }

  lemma AccuracyFree()
    ensures 'Q' !in AccuracyPriority
  {
    assert 'Q' !in "Accuracy is critical";
    assert 'Q' !in " - must be verified and precise";
  }

  lemma ExplainabilityFree()
    ensures 'Q' !in ExplainabilityPriority
  {
    assert 'Q' !in "Explainability matters";
    assert 'Q' !in " - must be transparent and clear";
  }

  lemma ConsistencyFree()
    ensures 'Q' !in ConsistencyPriority
  {
    assert 'Q' !in "Consistency is key";
    assert 'Q' !in " - must produce uniform results";
  }

  lemma PriorityFree(priority: string)
    ensures 'Q' !in PriorityText(priority)
  {
    SpeedFree();
    AccuracyFree();
    ExplainabilityFree();
    ConsistencyFree();
    assert 'Q' !in "Balanced";
  }

  lemma ToolLinesFree(overlay: Overlay)
    requires Free(overlay.requiredTools) && Free(overlay.forbiddenTools)
    ensures 'Q' !in (if overlay.requiredTools != [] then "**Required Tools**: " + Join(", ", overlay.requiredTools) + "\n\n" else "")
    ensures 'Q' !in (if overlay.forbiddenTools != [] then "**Cannot Use**: " + Join(", ", overlay.forbiddenTools) + "\n\n" else "")
  {
    JoinAbsent('Q', ", ", overlay.requiredTools);
    JoinAbsent('Q', ", ", overlay.forbiddenTools);
    assert 'Q' !in "**Required Tools**: " && 'Q' !in "**Cannot Use**: ";
  }

  lemma WhenToUseFree(overlay: Overlay)
    requires Free(overlay.requiredTools) && Free(overlay.forbiddenTools)
    ensures 'Q' !in WhenToUseSection(overlay)
  {
    ToolLinesFree(overlay);
    PriorityFree(overlay.priority);
    assert 'Q' !in "## When to Use This Skill\n\n" && 'Q' !in "**Priority**: ";
  }

  /** The numbered quick-start lines hold no Q when the canon's quickstart holds none. */
  lemma StepsFree(canon: Canon)
    requires 'Q' !in canon.quickstart
    ensures 'Q' !in Lines(Numbered(QuickstartSteps(canon)))
  {
    var steps := QuickstartSteps(canon);
    if canon.quickstart != "" {
      SplitAbsent(canon.quickstart, '\n', 'Q');
      FreeTake(Split(canon.quickstart, '\n'), 3);
    }
    assert Free(steps);
    var ns := Numbered(steps);
    forall k | 0 <= k < |ns| ensures 'Q' !in ns[k] {
      var n := NatToString(k + 1);
      assert forall i | 0 <= i < |n| :: n[i] != 'Q';
      assert 'Q' !in Strip(steps[k]);
    }
    LinesAbsent('Q', ns);
  }

  lemma DecisionLinesFree(canon: Canon)
    requires Free(canon.decisionPoints)
    ensures 'Q' !in DecisionLines(canon)
  {
    if canon.decisionPoints != [] {
      FreeBulletJoin(canon.decisionPoints, 5);
      assert 'Q' !in "### Decision Points\n\n";
    } else {
      DefaultWorkflowFree();
    }
  }

  lemma DefaultWorkflowFree()
    ensures 'Q' !in DefaultWorkflow
  {
    assert 'Q' !in "### Default Workflow\n\n" && 'Q' !in "1. Analyze input\n";
    assert 'Q' !in "2. Choose approach based on context\n" && 'Q' !in "3. Execute\n";
  }

  lemma FormatBlockFree(overlay: Overlay)
    requires overlay.outputFormat.Some? ==>
      'Q' !in overlay.outputFormat.value.description && 'Q' !in overlay.outputFormat.value.example
    ensures 'Q' !in FormatBlock(overlay)
  {
    if overlay.outputFormat.Some? {
      var f := overlay.outputFormat.value;
      assert 'Q' !in "- **" && 'Q' !in "description" && 'Q' !in "example" && 'Q' !in "**: ";
      assert 'Q' !in FormatLines(f)[0] && 'Q' !in FormatLines(f)[1];
      LinesAbsent('Q', FormatLines(f));
      assert 'Q' !in "\n### Required Output Format\n\n";
    }
  }

  lemma WorkflowFree(canon: Canon, overlay: Overlay)
    requires Free(canon.decisionPoints)
    requires overlay.outputFormat.Some? ==>
      'Q' !in overlay.outputFormat.value.description && 'Q' !in overlay.outputFormat.value.example
    ensures 'Q' !in WorkflowSection(canon, overlay)
  {
    DecisionLinesFree(canon);
    FormatBlockFree(overlay);
    assert 'Q' !in "## Workflow\n\n";
  }

  lemma ComplianceFree(overlay: Overlay)
    requires overlay.compliance.Some? ==> 'Q' !in overlay.compliance.value
    ensures 'Q' !in ComplianceBlock(overlay)
  {
    assert 'Q' !in "### Compliance Requirements\n\n";
  }

  lemma GuardrailsShapeFree(can: string, cannot: string, compliance: string)
    requires 'Q' !in can && 'Q' !in cannot && 'Q' !in compliance
    ensures 'Q' !in "## Guardrails\n\n" + "### What This Can Do\n" + can + "\n\n"
      + "### What This Cannot Do\n" + cannot + "\n\n" + compliance
  {
    assert 'Q' !in "## Guardrails\n\n" && 'Q' !in "### What This Can Do\n";
    assert 'Q' !in "### What This Cannot Do\n";
  }

  lemma GuardrailsFree(card: ScopeCard, overlay: Overlay)
    requires Free(card.mustCover) && Free(card.mustNotCover)
    requires overlay.compliance.Some? ==> 'Q' !in overlay.compliance.value
    ensures 'Q' !in GuardrailsSection(card, overlay)
  {
    FreeBulletJoin(card.mustCover, 3);
    FreeBulletJoin(card.mustNotCover, 3);
    ComplianceFree(overlay);
    GuardrailsShapeFree(Join("\n", Bullets(Take(card.mustCover, 3))),
      Join("\n", Bullets(Take(card.mustNotCover, 3))), ComplianceBlock(overlay));
  }

  lemma TemplateBlockFree(t: Template)
    requires 'Q' !in t.name && 'Q' !in t.content
    ensures 'Q' !in TemplateBlock(t)
  {
    assert 'Q' !in "### " && 'Q' !in "```";
  }

  lemma {:induction false} BlocksFree(ts: seq<Template>)
    requires forall k | 0 <= k < |ts| :: 'Q' !in ts[k].name && 'Q' !in ts[k].content
    ensures 'Q' !in Blocks(ts)
    decreases |ts|
  {
    if ts != [] {
      var init := ts[..|ts| - 1];
      assert forall k | 0 <= k < |init| :: init[k] == ts[k];
      BlocksFree(init);
      TemplateBlockFree(ts[|ts| - 1]);
    }
  }

  lemma DefaultTemplateFree()
    ensures 'Q' !in DefaultTemplate
  {
    assert 'Q' !in "[Template content" && 'Q' !in " will be added]";
    TemplateBlockFree(PlaceholderTemplate);
    PlaceholderBlock();
  }

  lemma TemplatesFree(canon: Canon)
    requires forall k | 0 <= k < |canon.templates| :: 'Q' !in canon.templates[k].name && 'Q' !in canon.templates[k].content
    ensures 'Q' !in TemplatesSection(canon)
  {
    var ts := Take(canon.templates, 5);
    assert forall k | 0 <= k < |ts| :: ts[k] == canon.templates[k];
    BlocksFree(ts);
    DefaultTemplateFree();
    assert 'Q' !in TemplatesBody(canon);
    assert 'Q' !in "## Templates / Examples\n\n";
  }

  lemma ModeTextFree(m: FailureMode)
    requires 'Q' !in m.symptom && 'Q' !in m.fix
    ensures 'Q' !in ModeText(m)
  {
    assert 'Q' !in "**Symptom**: " && 'Q' !in "**Fix**: ";
  }

  lemma {:induction false} ModesFree(ms: seq<FailureMode>)
    requires forall k | 0 <= k < |ms| :: 'Q' !in ms[k].symptom && 'Q' !in ms[k].fix
    ensures 'Q' !in Modes(ms)
    decreases |ms|
  {
    if ms != [] {
      var init := ms[..|ms| - 1];
      assert forall k | 0 <= k < |init| :: init[k] == ms[k];
      ModesFree(init);
      ModeTextFree(ms[|ms| - 1]);
    }
  }

  lemma ModesBodyFree(canon: Canon)
    requires forall k | 0 <= k < |canon.failureModes| ::
      'Q' !in canon.failureModes[k].symptom && 'Q' !in canon.failureModes[k].fix
    ensures 'Q' !in ModesBody(canon)
  {
    if canon.failureModes != [] {
      var ms := Take(canon.failureModes, 5);
      assert forall k | 0 <= k < |ms| :: ms[k] == canon.failureModes[k];
      ModesFree(ms);
    } else {
      assert 'Q' !in "- **Symptom**: " && 'Q' !in "Expected behavior not achieved\n";
      assert 'Q' !in "  **Fix**: " && 'Q' !in "Check inputs and prerequisites\n\n";
    }
  }

  lemma HistoryBlockFree(overlay: Overlay)
    requires Free(overlay.failureHistory)
    ensures 'Q' !in HistoryBlock(overlay)
  {
    FreeBulletJoin(overlay.failureHistory, 3);
    assert 'Q' !in "### Common Failures in Your Context\n\n";
  }

  lemma FailureModesFree(canon: Canon, overlay: Overlay)
    requires forall k | 0 <= k < |canon.failureModes| ::
      'Q' !in canon.failureModes[k].symptom && 'Q' !in canon.failureModes[k].fix
    requires Free(overlay.failureHistory)
    ensures 'Q' !in FailureModesSection(canon, overlay)
  {
    ModesBodyFree(canon);
    HistoryBlockFree(overlay);
    assert 'Q' !in "## Failure Modes & Fixes\n\n";
  }

  lemma EdgeBodyFree(canon: Canon)
    requires Free(canon.edgeCases)
    ensures 'Q' !in Compiler.EdgeBody(canon)
  {
    FreeBulletJoin(canon.edgeCases, 5);
    assert 'Q' !in "- Empty input\n" && 'Q' !in "- Boundary conditions\n" && 'Q' !in "- Unusual combinations\n";
  }

  lemma OutOfScopeFree(card: ScopeCard)
    requires Free(card.mustNotCover)
    ensures 'Q' !in OutOfScopeBlock(card)
  {
    FreeBulletJoin(card.mustNotCover, 3);
    assert 'Q' !in "\n### Out of Scope " && 'Q' !in "(Related But Not Covered)\n";
  }

  lemma EdgeCasesFree(card: ScopeCard, canon: Canon)
    requires Free(canon.edgeCases) && Free(card.mustNotCover)
    ensures 'Q' !in EdgeCasesSection(card, canon)
  {
    EdgeBodyFree(canon);
    OutOfScopeFree(card);
    assert 'Q' !in "## Edge Cases\n\n";
  }

  lemma OverridesLineFree()
    ensures 'Q' !in OverridesLine
  {
    assert 'Q' !in "- `references/user_overrides.md`";
    assert 'Q' !in " - Organization-specific" && 'Q' !in " constraints and preferences";
  }

  lemma TemplatesLineFree()
    ensures 'Q' !in TemplatesLine && 'Q' !in ExamplesLine
  {
    assert 'Q' !in "- `references/templates.md`" && 'Q' !in " - Template library and variations";
    assert 'Q' !in "- `references/examples.md`" && 'Q' !in " - Success stories and case studies";
  }

  lemma PracticesLineFree()
    ensures 'Q' !in PracticesLine
  {
    assert 'Q' !in "- `references/best_practices.md`" && 'Q' !in " - Best practices and gotchas";
  }

  lemma ResolutionIntroFree()
    ensures 'Q' !in ResolutionIntro
  {
    assert 'Q' !in "This skill resolves conflicts" && 'Q' !in " between external best practices";
    assert 'Q' !in " and local constraints:";
  }

  lemma ComplianceRuleFree()
    ensures 'Q' !in ComplianceRule
  {
    assert 'Q' !in "1. **Compliance/Org requirements**" && 'Q' !in " (highest priority) - never violated";
  }

  lemma PreferenceRuleFree()
    ensures 'Q' !in PreferenceRule
  {
    assert 'Q' !in "2. **User preferences**" && 'Q' !in " - followed unless conflict" && 'Q' !in " with compliance";
  }

  lemma PracticeRuleFree()
    ensures 'Q' !in PracticeRule
  {
    assert 'Q' !in "3. **External best practices**" && 'Q' !in " (lowest priority) - used as defaults";
  }

  lemma DecisionsNoteFree()
    ensures 'Q' !in DecisionsNote
  {
    assert 'Q' !in "See `references/decisions.md`" && 'Q' !in " for detailed resolution notes.";
  }

  lemma RefTitlesFree()
    ensures 'Q' !in ReferencesTitle && 'Q' !in FilesIntro && 'Q' !in ConflictTitle
  {
    assert 'Q' !in "## References" && 'Q' !in " & More Information";
    assert 'Q' !in "For detailed" && 'Q' !in " information, see:";
    assert 'Q' !in "### Conflict" && 'Q' !in " Resolution";
  }

  lemma ReferencesFree()
    ensures 'Q' !in ReferencesSection()
  {
    var ls := ReferenceLines;
    OverridesLineFree();
    TemplatesLineFree();
    PracticesLineFree();
    ResolutionIntroFree();
    ComplianceRuleFree();
    PreferenceRuleFree();
    PracticeRuleFree();
    DecisionsNoteFree();
    RefTitlesFree();
    assert forall k | 0 <= k < |ls| :: 'Q' !in ls[k];
    LinesAbsent('Q', ls);
  }

  /** The ten parts, named one by one. */
  lemma PartsAre(card: ScopeCard, canon: Canon, overlay: Overlay)
    ensures var p := DocumentParts(card, canon, overlay);
      p[0] == Frontmatter(card, overlay) && p[1] == DescriptionSection(card) && p[2] == WhenToUseSection(overlay)
      && p[3] == QuickstartSection(canon) && p[4] == WorkflowSection(canon, overlay)
      && p[5] == GuardrailsSection(card, overlay) && p[6] == TemplatesSection(canon)
      && p[7] == FailureModesSection(canon, overlay) && p[8] == EdgeCasesSection(card, canon)
      && p[9] == ReferencesSection()
  {
    TenIndices(Frontmatter(card, overlay), DescriptionSection(card), WhenToUseSection(overlay),
      QuickstartSection(canon), WorkflowSection(canon, overlay), GuardrailsSection(card, overlay),
      TemplatesSection(canon), FailureModesSection(canon, overlay), EdgeCasesSection(card, canon),
      ReferencesSection());
  }

  lemma TenIndices(a0: string, a1: string, a2: string, a3: string, a4: string,
                   a5: string, a6: string, a7: string, a8: string, a9: string)
    ensures var p := [a0, a1, a2, a3, a4, a5, a6, a7, a8, a9];
      p[0] == a0 && p[1] == a1 && p[2] == a2 && p[3] == a3 && p[4] == a4
      && p[5] == a5 && p[6] == a6 && p[7] == a7 && p[8] == a8 && p[9] == a9
  {
  }

  /** The parts before the Quick Start section join to a Q-free text. */
  lemma PartsBeforeFree(card: ScopeCard, canon: Canon, overlay: Overlay)
    requires NoCapitalQ(card, canon, overlay)
    ensures 'Q' !in Join("\n", DocumentParts(card, canon, overlay)[..3])
  {
    FrontmatterFree(card, overlay);
    DescriptionFree(card);
    WhenToUseFree(overlay);
    PartsAre(card, canon, overlay);
    FreeBefore(DocumentParts(card, canon, overlay));
  }

  /** The parts after the Quick Start section join to a Q-free text. */
  lemma PartsAfterFree(card: ScopeCard, canon: Canon, overlay: Overlay)
    requires NoCapitalQ(card, canon, overlay)
    ensures 'Q' !in Join("\n", DocumentParts(card, canon, overlay)[4..])
  {
    WorkflowFree(canon, overlay);
    GuardrailsFree(card, overlay);
    TemplatesFree(canon);
    FailureModesFree(canon, overlay);
    EdgeCasesFree(card, canon);
    ReferencesFree();
    PartsAre(card, canon, overlay);
    FreeAfter(DocumentParts(card, canon, overlay));
  }

  lemma FreeBefore(parts: seq<string>)
    requires |parts| == 10 && 'Q' !in parts[0] && 'Q' !in parts[1] && 'Q' !in parts[2]
    ensures 'Q' !in Join("\n", parts[..3])
  {
    JoinAbsent('Q', "\n", parts[..3]);
  }

  lemma FreeAfter(parts: seq<string>)
    requires |parts| == 10 && 'Q' !in parts[4] && 'Q' !in parts[5] && 'Q' !in parts[6]
    requires 'Q' !in parts[7] && 'Q' !in parts[8] && 'Q' !in parts[9]
    ensures 'Q' !in Join("\n", parts[4..])
  {
    assert forall k | 0 <= k < 6 :: parts[4..][k] == parts[k + 4];
    JoinAbsent('Q', "\n", parts[4..]);
  }

  // ---------------------------------------------------------------- gate 2: the only quick-start heading

  const QuickTitle: string := "## Quick Start"

  /** Around a Q-free text, the one Q of the compiler's heading is at offset 3. */
  lemma OnlyQ(x: string, y: string)
    requires 'Q' !in x && 'Q' !in y
    ensures forall i | 0 <= i < |x + QuickTitle + y| :: (x + QuickTitle + y)[i] == 'Q' ==> i == |x| + 3
  {
    var s := x + QuickTitle + y;
    assert |QuickTitle| == 14;
    assert forall k | 0 <= k < 14 && k != 3 :: QuickTitle[k] != 'Q';
    forall i | 0 <= i < |s| ensures s[i] == 'Q' ==> i == |x| + 3 {
      assert i < |x| ==> s[i] == x[i] && x[i] in x;
      assert i >= |x| + 14 ==> s[i] == y[i - |x| - 14] && y[i - |x| - 14] in y;
      assert |x| <= i < |x| + 14 ==> s[i] == QuickTitle[i - |x|];
    }
  }

  /**
   * A text whose only Q is that of "## Quick Start" holds no nine-character
   * pattern with Q at offset 3 unless its offset 8 reads ' '.
   */
  lemma NoOtherQuick(x: string, y: string, p: string)
    requires 'Q' !in x && 'Q' !in y
    requires |p| == 9 && p[3] == 'Q' && p[8] != ' '
    ensures !Contains(x + QuickTitle + y, p)
  {
    var s := x + QuickTitle + y;
    OnlyQ(x, y);
    assert |QuickTitle| == 14 && QuickTitle[8] == ' ';
    forall j | 0 <= j <= |s| ensures !OccursAt(s, p, j) {
      if j + 9 <= |s| {
        assert s[j..j + 9][3] == s[j + 3] && s[j..j + 9][8] == s[j + 8];
        assert j == |x| ==> s[j + 8] == QuickTitle[8];
      }
    }
  }

  /** Around Q-free texts, "## Quick Start" is present and neither spelling the validator accepts is. */
  lemma SoleQuickHeading(x: string, y: string)
    requires 'Q' !in x && 'Q' !in y
    ensures Contains(x + QuickTitle + y, "## Quick Start")
    ensures !Contains(x + QuickTitle + y, "## QuickS") && !Contains(x + QuickTitle + y, "## Quicks")
  {
    OccursInfix(x, QuickTitle, y);
    assert |"## QuickS"| == 9 && "## QuickS"[3] == 'Q' && "## QuickS"[8] == 'S';
    assert |"## Quicks"| == 9 && "## Quicks"[3] == 'Q' && "## Quicks"[8] == 's';
    NoOtherQuick(x, y, "## QuickS");
    NoOtherQuick(x, y, "## Quicks");
  }

  lemma QuickHeadingShape()
    ensures QuickstartHeading == QuickTitle + "\n\n"
  {
  }

  /**
   * Joined and collapsed, ten parts whose fourth is a Quick Start section and
   * whose others are Q-free hold "## Quick Start" and no validator spelling.
   */
  lemma QuickLayout(parts: seq<string>, steps: string)
    requires |parts| == 10 && parts[3] == QuickstartHeading + steps + "\n"
    requires 'Q' !in Join("\n", parts[..3]) && 'Q' !in Join("\n", parts[4..]) && 'Q' !in steps
    ensures Contains(Collapse(Join("\n", parts)), "## Quick Start")
    ensures !Contains(Collapse(Join("\n", parts)), "## QuickS")
    ensures !Contains(Collapse(Join("\n", parts)), "## Quicks")
  {
    JoinAround(parts, 3);
    QuickHeadingShape();
    var x := Join("\n", parts[..3]) + "\n";
    var y := "\n\n" + steps + "\n" + "\n" + Join("\n", parts[4..]);
    assert Join("\n", parts) == x + (QuickTitle + y);
    CollapseAround(x, QuickTitle, y);
    CollapseAbsent(x, 'Q');
    CollapseAbsent(y, 'Q');
    SoleQuickHeading(Collapse(x), Collapse(y));
  }

  /**
   * The quickstart gate reports an empty section on every compiled document
   * whose inputs hold no capital Q: the compiler writes "## Quick Start", which
   * the presence test accepts and the extraction pattern does not.
   */
  lemma QuickstartGateEmpty(card: ScopeCard, canon: Canon, overlay: Overlay)
    requires NoCapitalQ(card, canon, overlay)
    ensures QuickstartOutcome(CompiledDocument(card, canon, overlay))
         == Outcome(false, "Quickstart section empty", None)
  {
    var parts := DocumentParts(card, canon, overlay);
    PartsBeforeFree(card, canon, overlay);
    PartsAfterFree(card, canon, overlay);
    PartsAre(card, canon, overlay);
    StepsFree(canon);
    QuickLayout(parts, Lines(Numbered(QuickstartSteps(canon))));
    QuickBodyNone(CompiledDocument(card, canon, overlay));
  }

  /** Hence validation of such a compiled document never passes. */
  lemma CompiledReportFails(card: ScopeCard, canon: Canon, overlay: Overlay)
    requires NoCapitalQ(card, canon, overlay)
    ensures !ReportOf(CompiledDocument(card, canon, overlay)).passed
  {
    var doc := CompiledDocument(card, canon, overlay);
    QuickstartGateEmpty(card, canon, overlay);
    ReportOfContent(doc);
  }

  // ---------------------------------------------------------------- gate 4 and the compiled failure modes

  /** The three spellings gate 4 counts: the colon inside the bold. */
  predicate GateMarker(p: string) {
    p == "**Symptom:" || p == "**Failure:" || p == "**Issue:"
  }

  /** What the proofs below use of a spelling: bold-opened, colon-ended, and absent from both labels. */
  predicate Uncounted(p: string) {
    && |p| > 0 && p[0] == '*' && p[|p| - 1] == ':' && ' ' !in p && '\n' !in p
    && Count("**Symptom**:", p) == 0 && Count("**Fix**:", p) == 0
  }

  /** The symptom label holds the symptom spelling only with "**" before its colon. */
  lemma SymptomLabelLacks()
    ensures Count("**Symptom**:", "**Symptom:") == 0
  {
    var s, p := "**Symptom**:", "**Symptom:";
    forall i | 0 <= i <= |s| ensures !OccursAt(s, p, i) {
      if i == 0 {
        assert s[9] != p[9];
      } else if i == 1 {
        assert s[2] != p[1];
      } else if i == 2 {
        assert s[2] != p[0];
      }
    }
    CountZero(s, p, 0);
  }

  /** Neither label the compiler writes holds a spelling gate 4 counts. */
  lemma LabelsLackMarkers(p: string)
    requires GateMarker(p)
    ensures Uncounted(p)
  {
    if p == "**Symptom:" {
      SymptomLabelLacks();
      CountAbsent("**Fix**:", p, 2);
    } else if p == "**Failure:" {
      CountAbsent("**Symptom**:", p, 2);
      CountAbsent("**Fix**:", p, 3);
    } else {
      CountAbsent("**Symptom**:", p, 2);
      CountAbsent("**Fix**:", p, 2);
    }
  }

  /** Compiled failure modes with colon-free texts hold none of gate 4's spellings. */
  lemma {:induction false} ModesLackMarkers(ms: seq<FailureMode>, p: string)
    requires forall k | 0 <= k < |ms| :: ColonFree(ms[k])
    requires Uncounted(p)
    ensures Count(Modes(ms), p) == 0
    ensures ms != [] ==> Modes(ms) != [] && Modes(ms)[|Modes(ms)| - 1] == '\n'
    decreases |ms|
  {
    if ms != [] {
      var init := ms[..|ms| - 1];
      var last := ms[|ms| - 1];
      assert forall k | 0 <= k < |init| :: init[k] == ms[k];
      ModesLackMarkers(init, p);
      ModeMarkers(last, p);
      assert Modes(ms) == Modes(init) + ModeText(last);
      CountConcat(Modes(init), ModeText(last), p);
    } else {
      assert Modes(ms) == "";
    }
  }

  lemma DefaultSymptomLacks(p: string)
    requires Uncounted(p)
    ensures Count(DefaultSymptom, p) == 0
  {
    DefaultSymptomPieces();
    DefaultTextsColonFree();
    CountSeparated("-", ' ', "**Symptom**:" + [' '] + SymptomText, p);
    CountAbsent("-", p, 0);
    MarkedCount("**Symptom**:", p, SymptomText);
  }

  lemma DefaultFixLacks(p: string)
    requires Uncounted(p)
    ensures Count(DefaultFix, p) == 0
  {
    DefaultFixPieces();
    DefaultTextsColonFree();
    var marked := "**Fix**:" + [' '] + FixText;
    CountSeparated("", ' ', "" + [' '] + marked, p);
    CountSeparated("", ' ', marked, p);
    MarkedCount("**Fix**:", p, FixText);
  }

  /** The failure-modes section the compiler writes holds none of gate 4's spellings. */
  lemma SectionLacksMarker(canon: Canon, overlay: Overlay, p: string)
    requires forall k | 0 <= k < |canon.failureModes| :: ColonFree(canon.failureModes[k])
    requires forall k | 0 <= k < |overlay.failureHistory| :: ':' !in overlay.failureHistory[k]
    requires Uncounted(p)
    ensures Count(FailureModesSection(canon, overlay), p) == 0
  {
    var body := ModesBody(canon);
    if canon.failureModes != [] {
      var ms := Take(canon.failureModes, 5);
      assert forall k | 0 <= k < |ms| :: ms[k] == canon.failureModes[k];
      ModesLackMarkers(ms, p);
    } else {
      DefaultSymptomLacks(p);
      DefaultFixLacks(p);
      assert DefaultSymptom[|DefaultSymptom| - 1] == '\n';
      CountConcat(DefaultSymptom, DefaultFix, p);
    }
    CountAbsent(FailureModesHeading, p, 0);
    CountConcat(FailureModesHeading, body, p);
    HistoryColonFree(overlay);
    CountAbsent(HistoryBlock(overlay), p, |p| - 1);
    assert body != [] && body[|body| - 1] == '\n';
    CountConcat(FailureModesHeading + body, HistoryBlock(overlay), p);
  }

  /**
   * Gate 4 counts none of the compiled failure modes: the compiler writes
   * "**Symptom**:" while the gate looks for "**Symptom:", so on the section
   * alone the gate finds zero entries and fails, whatever the canon holds.
   */
  lemma FailureModesUncounted(canon: Canon, overlay: Overlay)
    requires forall k | 0 <= k < |canon.failureModes| :: ColonFree(canon.failureModes[k])
    requires forall k | 0 <= k < |overlay.failureHistory| :: ':' !in overlay.failureHistory[k]
    ensures MarkerCount(FailureModesSection(canon, overlay)) == 0
    ensures !FailureModesOutcome(FailureModesSection(canon, overlay)).passed
  {
    var section := FailureModesSection(canon, overlay);
    LabelsLackMarkers("**Symptom:");
    LabelsLackMarkers("**Failure:");
    LabelsLackMarkers("**Issue:");
    SectionLacksMarker(canon, overlay, "**Symptom:");
    SectionLacksMarker(canon, overlay, "**Failure:");
    SectionLacksMarker(canon, overlay, "**Issue:");
    forall j | 0 <= j ensures !MarkerAt(section, j) {
      CountZeroAbsent(section, "**Symptom:", 0, j);
      CountZeroAbsent(section, "**Failure:", 0, j);
      CountZeroAbsent(section, "**Issue:", 0, j);
    }
    MarkersZero(section, 0);
  }
}
