/**
 * The line layout of the frontmatter and of the Overview, When to Use,
 * Workflow, Guardrails and References sections: each section, split at its
 * newlines, is the list of lines the compiler writes. The frontmatter is
 * read back by the description gate.
 */
module SectionLayout {
  import opened Wrappers
  import opened Text
  import opened Records
  import opened Compiler
  import opened CompilerProperties
  import opened Validators
  import Findings

  // ---------------------------------------------------------------- splitting at newlines

  /** A newline between two texts separates their lines. */
  lemma {:induction false} SplitAround(a: string, b: string)
    ensures Split(a + "\n" + b, '\n') == Split(a, '\n') + Split(b, '\n')
    decreases |a|
  {
    var s := a + "\n" + b;
    if a == [] {
      assert s == "\n" + b && s[1..] == b;
    } else {
      assert s[0] == a[0] && s[1..] == a[1..] + "\n" + b;
      SplitAround(a[1..], b);
      var left := Split(a[1..], '\n');
      var rest := Split(s[1..], '\n');
      var sb := Split(b, '\n');
      assert rest == left + sb;
      if a[0] == '\n' {
        ListAssoc([[]], left, sb);
      } else {
        var h := [a[0]] + left[0];
        assert rest[0] == left[0] && rest[1..] == left[1..] + sb;
        ListAssoc([h], left[1..], sb);
      }
    }
  }

  lemma ListAssoc(x: seq<string>, y: seq<string>, z: seq<string>)
    ensures x + (y + z) == (x + y) + z
  {
  }

  lemma SplitEmpty()
    ensures Split("", '\n') == [""]
  {
  }

  /** Prefixing the first piece of a join. */
  lemma JoinPrefix(p: string, sep: string, xs: seq<string>)
    requires xs != []
    ensures p + Join(sep, xs) == Join(sep, [p + xs[0]] + xs[1..])
  {
    var ys := [p + xs[0]] + xs[1..];
    if |xs| > 1 {
      assert ys[1..] == xs[1..];
      AppendAssoc(p, xs[0], sep + Join(sep, xs[1..]));
    }
  }

  /** The lines of newline-free pieces joined by newlines; no pieces make one empty line. */
  function Joined(ls: seq<string>): (r: seq<string>)
    ensures |r| == if ls == [] then 1 else |ls|
  {
    if ls == [] then [""] else ls
  }

  lemma JoinedSplit(ls: seq<string>)
    requires NoNewlines(ls)
    ensures Split(Join("\n", ls), '\n') == Joined(ls)
  {
    if ls != [] {
      SplitJoin(ls, '\n');
    }
  }

  /** The lines of "- " followed by a newline join: the first piece gets the dash. */
  function Dashed(ls: seq<string>): (r: seq<string>)
    ensures |r| == if ls == [] then 1 else |ls|
  {
    if ls == [] then ["- "] else ["- " + ls[0]] + ls[1..]
  }

  lemma DashedSplit(ls: seq<string>)
    requires NoNewlines(ls)
    ensures Split("- " + Join("\n", ls), '\n') == Dashed(ls)
  {
    if ls == [] {
      assert "- " + Join("\n", ls) == "- ";
      SplitPlain("- ", '\n');
    } else {
      JoinPrefix("- ", "\n", ls);
      var cs := ["- " + ls[0]] + ls[1..];
      assert forall k | 0 <= k < |cs| :: '\n' !in cs[k] by {
        assert '\n' !in "- " + ls[0];
        assert forall k | 1 <= k < |cs| :: cs[k] == ls[k];
      }
      SplitJoin(cs, '\n');
    }
  }

  /** A blank line, a label line, then a text opening with q. */
  lemma LabelStep(x: string, lit: string, t: string, q: string, j: string)
    requires lit == t + "\n" + q && '\n' !in t
    ensures Split(x + "\n\n" + lit + j, '\n') == Split(x, '\n') + ["", t] + Split(q + j, '\n')
  {
    var nl: string := "\n";
    var r2 := t + nl + (q + j);
    var r1 := "" + nl + r2;
    assert lit + j == r2 by {
      AppendAssoc(t + nl, q, j);
      AppendAssoc(t, nl, q + j);
    }
    assert "\n\n" == nl + nl;
    assert x + "\n\n" + lit + j == x + nl + r1 by {
      AppendAssoc(x + nl, nl, r2);
      AppendAssoc(x, nl + nl, lit + j);
      AppendAssoc(x, nl, nl);
    }
    SplitAround(x, r1);
    SplitAround("", r2);
    SplitAround(t, q + j);
    SplitPlain(t, '\n');
  }

  /** A blank line, then a final block. */
  lemma BlankThen(x: string, z: string)
    ensures Split(x + "\n\n" + z, '\n') == Split(x, '\n') + [""] + Split(z, '\n')
  {
    var nl: string := "\n";
    assert x + "\n\n" + z == x + nl + ("" + nl + z);
    SplitAround(x, "" + nl + z);
    SplitAround("", z);
  }

  lemma NoNewlinesAppend(a: seq<string>, b: seq<string>)
    requires NoNewlines(a) && NoNewlines(b)
    ensures NoNewlines(a + b)
  {
    assert forall k | |a| <= k < |a + b| :: (a + b)[k] == b[k - |a|];
  }

  /** A line followed by a blank line, as Lines writes it. */
  lemma BlankLine(line: string)
    ensures line + "\n\n" == Lines([line, ""])
  {
    LinesSnoc([], line);
    LinesSnoc([line], "");
    assert [] + [line] == [line] && [line] + [""] == [line, ""];
    assert Lines([]) == "";
  }

  lemma {:induction false} LinesAppend(a: seq<string>, b: seq<string>)
    ensures Lines(a + b) == Lines(a) + Lines(b)
    decreases |b|
  {
    if b == [] {
      assert a + b == a;
    } else {
      var init, last := b[..|b| - 1], b[|b| - 1];
      LinesAppend(a, init);
      LinesSnoc(a + init, last);
      LinesSnoc(init, last);
      assert (a + init) + [last] == a + b && init + [last] == b;
      AppendAssoc(Lines(a), Lines(init), last + "\n");
      AppendAssoc(Lines(a) + Lines(init), last, "\n");
      AppendAssoc(Lines(init), last, "\n");
    }
  }

  // ---------------------------------------------------------------- overview

  const OverviewTitle: string := "## Overview"
  const PurposeLabel: string := "**Purpose**: "
  const DoesLabel: string := "**What this skill does**:"
  const UseLabel: string := "**When to use this**:"
  const NotLabel: string := "**What this skill does NOT do**:"

  /**
   * The lines of the Overview section: its title, the purpose, and three labelled
   * lists. Each list opens with "- " and its items are bullets themselves, so its
   * first line reads "- - item", or "- " alone when the list is empty.
   */
  function OverviewLines(card: ScopeCard): seq<string>
  {
    [OverviewTitle, ""] + [PurposeLabel + card.goal] + ["", DoesLabel] + Dashed(Bullets(Take(card.mustCover, 3)))
    + ["", UseLabel] + Dashed(Bullets(Take(card.triggerWords, 3)))
    + ["", NotLabel] + Dashed(Bullets(Take(card.mustNotCover, 2))) + [""]
  }

  lemma OverviewLabels()
    ensures "**What this skill does**:\n- " == DoesLabel + "\n" + "- "
    ensures "**When to use this**:\n- " == UseLabel + "\n" + "- "
    ensures "**What this skill does NOT do**:\n- " == NotLabel + "\n" + "- "
    ensures "## Overview\n\n" == OverviewTitle + "\n\n" && '\n' !in OverviewTitle
    ensures '\n' !in DoesLabel && '\n' !in UseLabel && '\n' !in NotLabel
  {
  }

  /** The Overview layout with its literal texts as parameters. */
  lemma OverviewShape(h: string, t: string, p: string, d1: string, l1: string, d2: string, l2: string,
                      d3: string, l3: string, g: string, j1: string, j2: string, j3: string)
    requires h == t + "\n\n" && d1 == l1 + "\n" + "- " && d2 == l2 + "\n" + "- " && d3 == l3 + "\n" + "- "
    requires '\n' !in t && '\n' !in p + g && '\n' !in l1 && '\n' !in l2 && '\n' !in l3
    ensures Split(h + p + g + "\n\n" + d1 + j1 + "\n\n" + d2 + j2 + "\n\n" + d3 + j3 + "\n", '\n')
      == [t, ""] + [p + g] + ["", l1] + Split("- " + j1, '\n') + ["", l2] + Split("- " + j2, '\n')
         + ["", l3] + Split("- " + j3, '\n') + [""]
  {
    var x1 := h + p + g;
    assert x1 == t + "\n\n" + (p + g);
    HeadedSplit(t, p + g);
    SplitPlain(p + g, '\n');
    var x2 := x1 + "\n\n" + d1 + j1;
    LabelStep(x1, d1, l1, "- ", j1);
    var x3 := x2 + "\n\n" + d2 + j2;
    LabelStep(x2, d2, l2, "- ", j2);
    var x4 := x3 + "\n\n" + d3 + j3;
    LabelStep(x3, d3, l3, "- ", j3);
    SplitAround(x4, "");
    assert x4 + "\n" == x4 + "\n" + "";
    SplitEmpty();
  }

  lemma OverviewSplit(g: string, j1: string, j2: string, j3: string)
    requires '\n' !in g
    ensures Split("## Overview\n\n" + "**Purpose**: " + g + "\n\n"
      + "**What this skill does**:\n- " + j1 + "\n\n"
      + "**When to use this**:\n- " + j2 + "\n\n"
      + "**What this skill does NOT do**:\n- " + j3 + "\n", '\n')
      == [OverviewTitle, ""] + [PurposeLabel + g] + ["", DoesLabel] + Split("- " + j1, '\n')
         + ["", UseLabel] + Split("- " + j2, '\n')
         + ["", NotLabel] + Split("- " + j3, '\n') + [""]
  {
    OverviewLabels();
    assert '\n' !in PurposeLabel + g;
    OverviewShape("## Overview\n\n", OverviewTitle, PurposeLabel, "**What this skill does**:\n- ", DoesLabel,
      "**When to use this**:\n- ", UseLabel, "**What this skill does NOT do**:\n- ", NotLabel, g, j1, j2, j3);
  }

  /**
   * The Overview section, split at its newlines, is OverviewLines. The title,
   * purpose and labels hold no newline, so the split recovers each of them.
   */
  lemma OverviewLayout(card: ScopeCard)
    requires '\n' !in card.goal
    requires NoNewlines(card.mustCover) && NoNewlines(card.triggerWords) && NoNewlines(card.mustNotCover)
    ensures Split(DescriptionSection(card), '\n') == OverviewLines(card)
  {
    var b1, b2, b3 := Bullets(Take(card.mustCover, 3)), Bullets(Take(card.triggerWords, 3)), Bullets(Take(card.mustNotCover, 2));
    TakeNoNewlines(card.mustCover, 3);
    TakeNoNewlines(card.triggerWords, 3);
    TakeNoNewlines(card.mustNotCover, 2);
    DashedSplit(b1);
    DashedSplit(b2);
    DashedSplit(b3);
    OverviewSplit(card.goal, Join("\n", b1), Join("\n", b2), Join("\n", b3));
  }

  /**
   * Every list keeps at most its first three items (two for must_not_cover) and
   * takes at least one line; the first item line of "What this skill does" reads
   * "- - item", or "- " alone when must_cover is empty.
   */
  lemma OverviewCounts(card: ScopeCard)
    ensures |OverviewLines(card)|
         == 10 + Max1(Min(3, |card.mustCover|)) + Max1(Min(3, |card.triggerWords|)) + Max1(Min(2, |card.mustNotCover|))
    ensures card.mustCover != [] ==> OverviewLines(card)[5] == "- - " + card.mustCover[0]
    ensures card.mustCover == [] ==> OverviewLines(card)[5] == "- "
  {
    var b1 := Bullets(Take(card.mustCover, 3));
    var head := [OverviewTitle, ""] + [PurposeLabel + card.goal] + ["", DoesLabel];
    assert OverviewLines(card)[5] == (head + Dashed(b1))[5] == Dashed(b1)[0];
    if card.mustCover != [] {
      assert b1[0] == "- " + card.mustCover[0];
      assert "- " + ("- " + card.mustCover[0]) == "- - " + card.mustCover[0];
    }
  }

  // ---------------------------------------------------------------- when to use

  const WhenTitle: string := "## When to Use This Skill"
  const RequiredLabel: string := "**Required Tools**: "
  const CannotLabel: string := "**Cannot Use**: "
  const PriorityLabel: string := "**Priority**: "

  /** A tool list's line and the blank line after it, or nothing for an empty list. */
  function ToolLines(lead: string, ts: seq<string>): seq<string>
  {
    if ts != [] then [lead + Join(", ", ts), ""] else []
  }

  function PriorityLines(priority: string): seq<string>
  {
    if priority != "" then [PriorityLabel + PriorityText(priority), ""] else []
  }

  /** The lines of the When to Use section: its title, then one line per set field of the overlay. */
  function WhenToUseLines(overlay: Overlay): seq<string>
  {
    [WhenTitle, ""] + ToolLines(RequiredLabel, overlay.requiredTools)
    + ToolLines(CannotLabel, overlay.forbiddenTools) + PriorityLines(overlay.priority)
  }

  lemma WhenToUseText(overlay: Overlay)
    ensures WhenToUseSection(overlay) == Lines(WhenToUseLines(overlay))
  {
    var a := [WhenTitle, ""];
    var r := ToolLines(RequiredLabel, overlay.requiredTools);
    var f := ToolLines(CannotLabel, overlay.forbiddenTools);
    var q := PriorityLines(overlay.priority);
    assert "## When to Use This Skill\n\n" == WhenTitle + "\n\n";
    BlankLine(WhenTitle);
    if overlay.requiredTools != [] {
      BlankLine(RequiredLabel + Join(", ", overlay.requiredTools));
    }
    if overlay.forbiddenTools != [] {
      BlankLine(CannotLabel + Join(", ", overlay.forbiddenTools));
    }
    if overlay.priority != "" {
      BlankLine(PriorityLabel + PriorityText(overlay.priority));
    }
    LinesAppend(a, r);
    LinesAppend(a + r, f);
    LinesAppend(a + r + f, q);
  }

  lemma SpeedPlain()
    ensures '\n' !in SpeedPriority
  {
    assert '\n' !in "Speed is most important" && '\n' !in " - get fast results even if imperfect";
  }

  lemma AccuracyPlain()
    ensures '\n' !in AccuracyPriority
  {
    assert '\n' !in "Accuracy is critical" && '\n' !in " - must be verified and precise";
  }

  lemma ExplainabilityPlain()
    ensures '\n' !in ExplainabilityPriority
  {
    assert '\n' !in "Explainability matters" && '\n' !in " - must be transparent and clear";
  }

  lemma ConsistencyPlain()
    ensures '\n' !in ConsistencyPriority
  {
    assert '\n' !in "Consistency is key" && '\n' !in " - must produce uniform results";
  }

  lemma PriorityPlain(priority: string)
    ensures '\n' !in PriorityText(priority)
  {
    SpeedPlain();
    AccuracyPlain();
    ExplainabilityPlain();
    ConsistencyPlain();
  }

  lemma WhenLabelsPlain()
    ensures '\n' !in WhenTitle && '\n' !in RequiredLabel && '\n' !in CannotLabel && '\n' !in PriorityLabel
  {
  }

  lemma WhenToUsePlain(overlay: Overlay)
    requires NoNewlines(overlay.requiredTools) && NoNewlines(overlay.forbiddenTools)
    ensures NoNewlines(WhenToUseLines(overlay))
  {
    JoinAbsent('\n', ", ", overlay.requiredTools);
    JoinAbsent('\n', ", ", overlay.forbiddenTools);
    PriorityPlain(overlay.priority);
    WhenLabelsPlain();
    var a := [WhenTitle, ""];
    var r := ToolLines(RequiredLabel, overlay.requiredTools);
    var f := ToolLines(CannotLabel, overlay.forbiddenTools);
    NoNewlinesAppend(a, r);
    NoNewlinesAppend(a + r, f);
    NoNewlinesAppend(a + r + f, PriorityLines(overlay.priority));
  }

  /**
   * The When to Use section, split at its newlines: the title and a blank line,
   * then for each of required tools, forbidden tools and priority that is set,
   * its line and a blank line, and a final empty piece after the last newline.
   */
  lemma WhenToUseLayout(overlay: Overlay)
    requires NoNewlines(overlay.requiredTools) && NoNewlines(overlay.forbiddenTools)
    ensures Split(WhenToUseSection(overlay), '\n') == WhenToUseLines(overlay) + [""]
  {
    WhenToUseText(overlay);
    WhenToUsePlain(overlay);
    LinesSplit(WhenToUseLines(overlay), "");
    assert Lines(WhenToUseLines(overlay)) + "" == Lines(WhenToUseLines(overlay));
  }

  // ---------------------------------------------------------------- workflow

  const WorkflowTitle: string := "## Workflow"
  const DecisionTitle: string := "### Decision Points"
  const FormatTitle: string := "### Required Output Format"
  const DefaultWorkflowItems: seq<string> :=
    ["### Default Workflow", "", "1. Analyze input", "2. Choose approach" + " based on context", "3. Execute"]

  /** The decision-point lines: a sub-heading and at most five bullets, or the default three steps. */
  function DecisionItems(canon: Canon): seq<string>
  {
    if canon.decisionPoints != [] then [DecisionTitle, ""] + Bullets(Take(canon.decisionPoints, 5))
    else DefaultWorkflowItems
  }

  /** The output-format lines: a blank line, a sub-heading and the two key lines, when a format is set. */
  function FormatItems(overlay: Overlay): seq<string>
  {
    if overlay.outputFormat.Some? then ["", FormatTitle, ""] + FormatLines(overlay.outputFormat.value) else []
  }

  function WorkflowLines(canon: Canon, overlay: Overlay): seq<string>
  {
    [WorkflowTitle, ""] + DecisionItems(canon) + FormatItems(overlay)
  }

  /** A title, a blank line and three lines, as Lines writes them. */
  lemma TitledThree(t: string, a: string, b: string, c: string)
    ensures t + "\n\n" + (a + "\n") + (b + "\n") + (c + "\n") == Lines([t, ""] + [a] + [b] + [c])
  {
    BlankLine(t);
    LinesSnoc([t, ""], a);
    LinesSnoc([t, ""] + [a], b);
    LinesSnoc([t, ""] + [a] + [b], c);
  }

  lemma DefaultWorkflowText()
    ensures DefaultWorkflow == Lines(DefaultWorkflowItems)
  {
    var t, a, b, c := "### Default Workflow", "1. Analyze input", "2. Choose approach" + " based on context", "3. Execute";
    assert "### Default Workflow\n\n" == t + "\n\n";
    assert "1. Analyze input\n" == a + "\n" && "3. Execute\n" == c + "\n";
    assert "2. Choose approach based on context\n" == b + "\n";
    TitledThree(t, a, b, c);
    assert [t, ""] + [a] + [b] + [c] == DefaultWorkflowItems;
  }

  /** A blank line, a title and a blank line, as Lines writes them. */
  lemma BlankTitled(t: string)
    ensures "\n" + t + "\n\n" == Lines([""] + [t] + [""])
  {
    LinesSnoc([], "");
    LinesSnoc([""], t);
    LinesSnoc([""] + [t], "");
    assert [] + [""] == [""];
    assert Lines([]) + "" + "\n" == "\n";
    AppendAssoc("\n" + t, "\n", "" + "\n");
  }

  lemma FormatHeadingText()
    ensures FormatHeading == Lines(["", FormatTitle, ""])
  {
    assert FormatHeading == "\n" + FormatTitle + "\n\n";
    BlankTitled(FormatTitle);
    assert [""] + [FormatTitle] + [""] == ["", FormatTitle, ""];
  }

  lemma WorkflowText(canon: Canon, overlay: Overlay)
    ensures WorkflowSection(canon, overlay) == Lines(WorkflowLines(canon, overlay)) + "\n"
  {
    var w := [WorkflowTitle, ""];
    var d := DecisionItems(canon);
    var f := FormatItems(overlay);
    assert WorkflowHeading == WorkflowTitle + "\n\n";
    BlankLine(WorkflowTitle);
    if canon.decisionPoints != [] {
      assert DecisionHeading == DecisionTitle + "\n\n";
      BlankLine(DecisionTitle);
      LinesAppend([DecisionTitle, ""], Bullets(Take(canon.decisionPoints, 5)));
    } else {
      DefaultWorkflowText();
    }
    assert DecisionLines(canon) == Lines(d);
    if overlay.outputFormat.Some? {
      FormatHeadingText();
      LinesAppend(["", FormatTitle, ""], FormatLines(overlay.outputFormat.value));
    }
    assert FormatBlock(overlay) == Lines(f);
    LinesAppend(w, d);
    LinesAppend(w + d, f);
  }

  lemma WorkflowTitlesPlain()
    ensures '\n' !in WorkflowTitle && '\n' !in DecisionTitle && '\n' !in FormatTitle
    ensures NoNewlines(DefaultWorkflowItems)
  {
    assert '\n' !in "2. Choose approach" && '\n' !in " based on context";
  }

  lemma WorkflowPlain(canon: Canon, overlay: Overlay)
    requires NoNewlines(canon.decisionPoints)
    requires overlay.outputFormat.Some? ==>
      '\n' !in overlay.outputFormat.value.description && '\n' !in overlay.outputFormat.value.example
    ensures NoNewlines(WorkflowLines(canon, overlay))
  {
    WorkflowTitlesPlain();
    TakeNoNewlines(canon.decisionPoints, 5);
    BulletsNoNewlines(Take(canon.decisionPoints, 5));
    if canon.decisionPoints != [] {
      NoNewlinesAppend([DecisionTitle, ""], Bullets(Take(canon.decisionPoints, 5)));
    }
    if overlay.outputFormat.Some? {
      var v := overlay.outputFormat.value;
      assert '\n' !in "- **" + "description" + "**: " + v.description;
      assert '\n' !in "- **" + "example" + "**: " + v.example;
      NoNewlinesAppend(["", FormatTitle, ""], FormatLines(v));
    }
    NoNewlinesAppend([WorkflowTitle, ""], DecisionItems(canon));
    NoNewlinesAppend([WorkflowTitle, ""] + DecisionItems(canon), FormatItems(overlay));
  }

  /**
   * The Workflow section, split at its newlines: its title and a blank line, the
   * decision-point lines, the output-format lines, and a blank line.
   */
  lemma WorkflowLayout(canon: Canon, overlay: Overlay)
    requires NoNewlines(canon.decisionPoints)
    requires overlay.outputFormat.Some? ==>
      '\n' !in overlay.outputFormat.value.description && '\n' !in overlay.outputFormat.value.example
    ensures Split(WorkflowSection(canon, overlay), '\n') == WorkflowLines(canon, overlay) + ["", ""]
  {
    WorkflowText(canon, overlay);
    WorkflowPlain(canon, overlay);
    LinesSplit(WorkflowLines(canon, overlay), "\n");
    SplitNewline();
  }

  /**
   * At most five decision points are listed, each as "- point" in the canon's
   * order; with none, the three default steps stand in; a set output format adds
   * five lines, its description before its example.
   */
  lemma WorkflowCounts(canon: Canon, overlay: Overlay)
    ensures |DecisionItems(canon)| == if canon.decisionPoints != [] then 2 + Min(5, |canon.decisionPoints|) else 5
    ensures forall k | 0 <= k < Min(5, |canon.decisionPoints|) :: DecisionItems(canon)[2 + k] == "- " + canon.decisionPoints[k]
    ensures |FormatItems(overlay)| == if overlay.outputFormat.Some? then 5 else 0
    ensures overlay.outputFormat.Some? ==>
      FormatItems(overlay)[3] == "- **description**: " + overlay.outputFormat.value.description
      && FormatItems(overlay)[4] == "- **example**: " + overlay.outputFormat.value.example
  {
    if overlay.outputFormat.Some? {
      var v := overlay.outputFormat.value;
      assert "- **" + "description" + "**: " == "- **description**: ";
      assert "- **" + "example" + "**: " == "- **example**: ";
      assert FormatItems(overlay)[3] == FormatLines(v)[0];
    }
  }

  // ---------------------------------------------------------------- guardrails

  const GuardrailsTitle: string := "## Guardrails"
  const CanTitle: string := "### What This Can Do"
  const CannotTitle: string := "### What This Cannot Do"
  const ComplianceTitle: string := "### Compliance Requirements"

  /** The compliance lines: a sub-heading, the constraint text's own lines and a blank line; or one empty piece. */
  function ComplianceLines(overlay: Overlay): seq<string>
  {
    if overlay.compliance.Some? && overlay.compliance.value != "" then
      [ComplianceTitle, ""] + Split(overlay.compliance.value, '\n') + ["", ""]
    else [""]
  }

  /**
   * The lines of the Guardrails section: the title, the first three must_cover
   * bullets, the first three must_not_cover bullets, then the compliance lines.
   */
  function GuardrailsLines(card: ScopeCard, overlay: Overlay): seq<string>
  {
    [GuardrailsTitle] + ["", CanTitle] + Joined(Bullets(Take(card.mustCover, 3)))
    + ["", CannotTitle] + Joined(Bullets(Take(card.mustNotCover, 3))) + [""] + ComplianceLines(overlay)
  }

  /** The Guardrails layout with its literal texts as parameters. */
  lemma GuardrailsShape(h: string, t: string, c1: string, l1: string, c2: string, l2: string,
                        j1: string, j2: string, cb: string)
    requires h == t + "\n\n" && c1 == l1 + "\n" && c2 == l2 + "\n"
    requires '\n' !in t && '\n' !in l1 && '\n' !in l2
    ensures Split(h + c1 + j1 + "\n\n" + c2 + j2 + "\n\n" + cb, '\n')
      == [t] + ["", l1] + Split(j1, '\n') + ["", l2] + Split(j2, '\n') + [""] + Split(cb, '\n')
  {
    var x1 := h + c1 + j1;
    assert x1 == t + "\n\n" + c1 + j1;
    assert c1 == l1 + "\n" + "" && "" + j1 == j1;
    LabelStep(t, c1, l1, "", j1);
    SplitPlain(t, '\n');
    var x2 := x1 + "\n\n" + c2 + j2;
    assert c2 == l2 + "\n" + "" && "" + j2 == j2;
    LabelStep(x1, c2, l2, "", j2);
    BlankThen(x2, cb);
  }

  lemma GuardrailsSplit(j1: string, j2: string, cb: string)
    ensures Split("## Guardrails\n\n" + "### What This Can Do\n" + j1 + "\n\n"
      + "### What This Cannot Do\n" + j2 + "\n\n" + cb, '\n')
      == [GuardrailsTitle] + ["", CanTitle] + Split(j1, '\n') + ["", CannotTitle] + Split(j2, '\n') + [""] + Split(cb, '\n')
  {
    GuardrailsTitles();
    GuardrailsShape("## Guardrails\n\n", GuardrailsTitle, "### What This Can Do\n", CanTitle,
      "### What This Cannot Do\n", CannotTitle, j1, j2, cb);
  }

  lemma GuardrailsTitles()
    ensures "## Guardrails\n\n" == GuardrailsTitle + "\n\n" && '\n' !in GuardrailsTitle
    ensures "### What This Can Do\n" == CanTitle + "\n" && '\n' !in CanTitle
    ensures "### What This Cannot Do\n" == CannotTitle + "\n" && '\n' !in CannotTitle
  {
  }

  lemma ComplianceSplit(overlay: Overlay)
    ensures Split(ComplianceBlock(overlay), '\n') == ComplianceLines(overlay)
  {
    if overlay.compliance.Some? && overlay.compliance.value != "" {
      var v := overlay.compliance.value;
      assert "### Compliance Requirements\n\n" == ComplianceTitle + "\n\n" && '\n' !in ComplianceTitle;
      assert ComplianceBlock(overlay) == ComplianceTitle + "\n\n" + (v + "\n\n");
      HeadedSplit(ComplianceTitle, v + "\n\n");
      assert v + "\n\n" == v + "\n\n" + "";
      BlankThen(v, "");
      SplitEmpty();
    } else {
      SplitEmpty();
    }
  }

  /**
   * The Guardrails section, split at its newlines: the title and a blank line,
   * the can-do heading and at most three must_cover bullets, a blank line, the
   * cannot-do heading and at most three must_not_cover bullets, a blank line, and
   * the compliance sub-section when the overlay has one.
   */
  lemma GuardrailsLayout(card: ScopeCard, overlay: Overlay)
    requires NoNewlines(card.mustCover) && NoNewlines(card.mustNotCover)
    ensures Split(GuardrailsSection(card, overlay), '\n') == GuardrailsLines(card, overlay)
    ensures |Joined(Bullets(Take(card.mustCover, 3)))| == Max1(Min(3, |card.mustCover|))
    ensures |Joined(Bullets(Take(card.mustNotCover, 3)))| == Max1(Min(3, |card.mustNotCover|))
  {
    var b1, b2 := Bullets(Take(card.mustCover, 3)), Bullets(Take(card.mustNotCover, 3));
    TakeNoNewlines(card.mustCover, 3);
    TakeNoNewlines(card.mustNotCover, 3);
    JoinedSplit(b1);
    JoinedSplit(b2);
    ComplianceSplit(overlay);
    GuardrailsSplit(Join("\n", b1), Join("\n", b2), ComplianceBlock(overlay));
  }

  // ---------------------------------------------------------------- references

  lemma OverridesLinePlain()
    ensures '\n' !in OverridesLine
  {
    assert '\n' !in "- `references/user_overrides.md`";
    assert '\n' !in " - Organization-specific" && '\n' !in " constraints and preferences";
  }

  lemma TemplatesLinePlain()
    ensures '\n' !in TemplatesLine && '\n' !in ExamplesLine
  {
    assert '\n' !in "- `references/templates.md`" && '\n' !in " - Template library and variations";
    assert '\n' !in "- `references/examples.md`" && '\n' !in " - Success stories and case studies";
  }

  lemma PracticesLinePlain()
    ensures '\n' !in PracticesLine
  {
    assert '\n' !in "- `references/best_practices.md`" && '\n' !in " - Best practices and gotchas";
  }

  lemma ResolutionIntroPlain()
    ensures '\n' !in ResolutionIntro
  {
    assert '\n' !in "This skill resolves conflicts" && '\n' !in " between external best practices";
    assert '\n' !in " and local constraints:";
  }

  lemma ComplianceRulePlain()
    ensures '\n' !in ComplianceRule
  {
    assert '\n' !in "1. **Compliance/Org requirements**" && '\n' !in " (highest priority) - never violated";
  }

  lemma PreferenceRulePlain()
    ensures '\n' !in PreferenceRule
  {
    assert '\n' !in "2. **User preferences**" && '\n' !in " - followed unless conflict" && '\n' !in " with compliance";
  }

  lemma PracticeRulePlain()
    ensures '\n' !in PracticeRule && '\n' !in DecisionsNote
  {
    assert '\n' !in "3. **External best practices**" && '\n' !in " (lowest priority) - used as defaults";
    assert '\n' !in "See `references/decisions.md`" && '\n' !in " for detailed resolution notes.";
  }

  lemma RefTitlesPlain()
    ensures '\n' !in ReferencesTitle && '\n' !in FilesIntro && '\n' !in ConflictTitle
  {
    assert '\n' !in "## References" && '\n' !in " & More Information";
    assert '\n' !in "For detailed" && '\n' !in " information, see:";
    assert '\n' !in "### Conflict" && '\n' !in " Resolution";
  }

  /**
   * The References section, split at its newlines, is its sixteen lines (the
   * reference files, the three-level conflict-resolution order and the line
   * naming the decisions file) and a final empty piece.
   */
  lemma ReferencesLayout()
    ensures Split(ReferencesSection(), '\n') == ReferenceLines + [""]
    ensures |ReferenceLines| == 16
  {
    var ls := ReferenceLines;
    OverridesLinePlain();
    TemplatesLinePlain();
    PracticesLinePlain();
    ResolutionIntroPlain();
    ComplianceRulePlain();
    PreferenceRulePlain();
    PracticeRulePlain();
    RefTitlesPlain();
    assert NoNewlines(ls);
    LinesSplit(ls, "");
    assert Lines(ls) + "" == Lines(ls);
  }

  // ---------------------------------------------------------------- frontmatter and gate 1

  /** The frontmatter's two fields, as the description gate's lazy group captures them. */
  function FrontBody(name: string, description: string): string
  {
    "name: " + name + "\n" + ("description: " + description)
  }

  /** The frontmatter up to and including its closing "---". */
  function FrontBlock(name: string, description: string): string
  {
    "---\nname: " + name + "\ndescription: " + description + "\n---"
  }

  lemma FrontmatterText(card: ScopeCard, overlay: Overlay)
    ensures Frontmatter(card, overlay)
         == FrontBlock(SanitizeSkillName(card.goal), DescriptionShort(card, overlay)) + "\n"
  {
    var n, d := SanitizeSkillName(card.goal), DescriptionShort(card, overlay);
    var x := "---\nname: " + n + "\ndescription: " + d;
    assert "\n---\n" == "\n---" + "\n";
    AppendAssoc(x, "\n---", "\n");
  }

  /** The frontmatter block is its opening line, the body and its closing line. */
  lemma FrontBlockParts(name: string, description: string)
    ensures FrontBlock(name, description) == "---" + "\n" + (FrontBody(name, description) + "\n" + "---")
  {
    var l1, l2 := "name: " + name, "description: " + description;
    var nl: string := "\n";
    assert "---\nname: " == "---" + nl + "name: ";
    assert "\ndescription: " == nl + "description: ";
    assert "\n---" == nl + "---";
    AppendAssoc("---" + nl, "name: ", name);
    AppendAssoc(nl, "description: ", description);
    assert FrontBlock(name, description) == "---" + nl + l1 + nl + l2 + nl + "---";
  }

  lemma CollapseNewline(b: string)
    requires b == [] || b[0] != '\n'
    ensures Collapse("\n" + b) == "\n" + Collapse(b)
  {
    var nb := "\n" + b;
    NewlineRunAll("\n", b);
    assert nb[0] == '\n' && nb[..1] == "\n" && nb[1..] == b;
  }

  /** A newline between a newline-free text and a text that does not open with one is kept. */
  lemma CollapseSingle(a: string, b: string)
    requires '\n' !in a && (b == [] || b[0] != '\n')
    ensures Collapse(a + "\n" + b) == a + "\n" + Collapse(b)
  {
    CollapseSplitNewline(a, b);
    CollapsePlain(a);
    CollapseNewline(b);
  }

  lemma CollapseSplitNewline(a: string, b: string)
    requires '\n' !in a
    ensures Collapse(a + "\n" + b) == Collapse(a) + Collapse("\n" + b)
  {
    var nb := "\n" + b;
    assert a + "\n" + b == a + nb;
    CollapseSplit(a, nb);
  }

  lemma FrontBlockFixed(name: string, description: string)
    requires '\n' !in name && '\n' !in description
    ensures Collapse(FrontBlock(name, description)) == FrontBlock(name, description)
  {
    var l1, l2 := "name: " + name, "description: " + description;
    var body := FrontBody(name, description);
    FrontBlockParts(name, description);
    CollapseSingle(l1, l2);
    CollapsePlain(l2);
    assert Collapse(body) == body;
    CollapsePlain("---");
    CollapseNewline("---");
    assert body[|body| - 1] == l2[|l2| - 1] != '\n';
    CollapseSplit(body, "\n" + "---");
    assert body + "\n" + "---" == body + ("\n" + "---");
    CollapseSingle("---", body + "\n" + "---");
  }

  /** In the frontmatter body a newline is never followed by a dash. */
  lemma FrontBodyNewlines(name: string, description: string, k: nat)
    requires '\n' !in name && '\n' !in description
    requires k < |FrontBody(name, description)| && FrontBody(name, description)[k] == '\n'
    ensures k == 6 + |name| && k + 1 < |FrontBody(name, description)| && FrontBody(name, description)[k + 1] == 'd'
  {
    var a, b := "name: " + name, "description: " + description;
    var fm := FrontBody(name, description);
    assert forall q | 0 <= q < |a| :: fm[q] == a[q];
    assert forall q | |a| < q < |fm| :: fm[q] == b[q - |a| - 1];
    assert fm[|a| + 1] == b[0];
  }

  /** The document opens with "---\n", the body, and the closing "\n---". */
  lemma FrontBlockOpens(name: string, description: string, rest: string)
    ensures var s := FrontBlock(name, description) + rest;
      var e := 4 + |FrontBody(name, description)|;
      e + 4 <= |s| && s[..4] == "---\n" && s[4..e] == FrontBody(name, description) && s[e..e + 4] == "\n---"
  {
    var fm := FrontBody(name, description);
    FrontBlockParts(name, description);
    var s := FrontBlock(name, description) + rest;
    assert s == "---\n" + fm + ("\n---" + rest);
  }

  /** No closing "\n---" starts inside the body. */
  lemma NoCloseInside(name: string, description: string, rest: string, j: nat)
    requires '\n' !in name && '\n' !in description
    requires 4 <= j < 4 + |FrontBody(name, description)|
    ensures !OccursAt(FrontBlock(name, description) + rest, "\n---", j)
  {
    var fm := FrontBody(name, description);
    var s := FrontBlock(name, description) + rest;
    FrontBlockOpens(name, description, rest);
    var e := 4 + |fm|;
    assert s[j] == fm[j - 4];
    if s[j] == '\n' {
      FrontBodyNewlines(name, description, j - 4);
      assert s[j + 1] == fm[j - 3];
    }
  }

  /** The description gate's frontmatter pattern captures exactly the body. */
  lemma FrontmatterRead(name: string, description: string, rest: string)
    requires '\n' !in name && '\n' !in description
    ensures FrontmatterOf(FrontBlock(name, description) + rest) == Some(FrontBody(name, description))
  {
    var fm := FrontBody(name, description);
    var s := FrontBlock(name, description) + rest;
    var e := 4 + |fm|;
    FrontBlockOpens(name, description, rest);
    assert OccursAt(s, "\n---", e);
    forall j | 4 <= j < e
      ensures !OccursAt(s, "\n---", j)
    {
      NoCloseInside(name, description, rest, j);
    }
    assert FindFrom(s, "\n---", 4) == Some(e);
  }

  /** No colon before the description label's own. */
  lemma FrontBodyColons(name: string, description: string, p: nat)
    requires ':' !in name && '\n' !in name
    requires 11 <= p < 18 + |name|
    ensures p < |FrontBody(name, description)| && FrontBody(name, description)[p] != ':'
  {
    var fm := FrontBody(name, description);
    var a, b := "name: " + name, "description: " + description;
    assert forall q | 6 <= q < |a| :: fm[q] == name[q - 6];
    assert forall q | |a| < q < |a| + 12 :: fm[q] == b[q - |a| - 1];
    assert forall q | 0 <= q < 11 :: b[q] != ':';
    assert fm[|a|] == '\n';
  }

  /** The leftmost "description:" of the body is its own label. */
  lemma DescriptionFound(name: string, description: string)
    requires ':' !in name && '\n' !in name
    ensures FindFrom(FrontBody(name, description), "description:", 0) == Some(7 + |name|)
  {
    var fm := FrontBody(name, description);
    var i := 7 + |name|;
    assert fm[i..i + 12] == "description:";
    assert OccursAt(fm, "description:", i);
    forall j | 0 <= j < i
      ensures !OccursAt(fm, "description:", j)
    {
      FrontBodyColons(name, description, j + 11);
    }
  }

  /** The description gate reads back the description it was given. */
  lemma DescriptionRead(name: string, description: string)
    requires ':' !in name && '\n' !in name && '\n' !in description
    requires description != [] && !IsSpace(description[0])
    ensures Contains(FrontBody(name, description), "name:")
    ensures DescriptionValue(FrontBody(name, description)) == Some(description)
  {
    var fm := FrontBody(name, description);
    var i := 7 + |name|;
    assert fm[..5] == "name:";
    assert OccursAt(fm, "name:", 0);
    DescriptionFound(name, description);
    assert fm[i + 12] == ' ' && fm[i + 13] == description[0];
    var e := SkipSpace(fm, i + 12);
    assert e == i + 13;
    assert forall q | e <= q < |fm| :: fm[q] == description[q - e];
    var k := LineEnd(fm, e);
    assert k == |fm|;
    assert fm[e..k] == description;
  }

  /** The skill name holds neither a colon nor a newline: its tokens are alphanumeric. */
  lemma NamePlain(goal: string)
    ensures ':' !in SanitizeSkillName(goal) && '\n' !in SanitizeSkillName(goal)
  {
    var tokens := NameTokens(goal);
    forall k | 0 <= k < |tokens| ensures ':' !in tokens[k] && '\n' !in tokens[k] {
      assert forall i | 0 <= i < |tokens[k]| :: IsAlnumChar(tokens[k][i]);
    }
    JoinAbsent(':', "-", tokens);
    JoinAbsent('\n', "-", tokens);
  }

  /** The long description is newline-free and opens with the goal's first character, or with the "." after an empty goal. */
  lemma LongPlain(card: ScopeCard, overlay: Overlay)
    requires '\n' !in card.goal && NoNewlines(Take(card.triggerWords, 3)) && NoNewlines(Take(overlay.requiredTools, 2))
    ensures var long := DescriptionLong(card, overlay);
      '\n' !in long && |long| >= 13 && long[0] == (if card.goal == [] then '.' else card.goal[0])
  {
    JoinAbsent('\n', ", ", Take(card.triggerWords, 3));
    JoinAbsent('\n', ", ", Take(overlay.requiredTools, 2));
    assert '\n' !in ". " && '\n' !in "Triggers: " && '\n' !in "." && '\n' !in " Uses: ";
  }

  /** The short description is newline-free, non-empty and opens as the long one does. */
  lemma ShortPlain(card: ScopeCard, overlay: Overlay)
    requires '\n' !in card.goal && NoNewlines(Take(card.triggerWords, 3)) && NoNewlines(Take(overlay.requiredTools, 2))
    ensures var d := DescriptionShort(card, overlay);
      '\n' !in d && d != [] && d[0] == (if card.goal == [] then '.' else card.goal[0])
  {
    LongPlain(card, overlay);
    var long := DescriptionLong(card, overlay);
    var d := DescriptionShort(card, overlay);
    assert forall k | 0 <= k < |d| :: d[k] == long[k];
  }

  /** sep.join(parts) for two or more parts: the first part, the separator, then the rest joined. */
  lemma JoinHead(parts: seq<string>)
    requires |parts| > 1
    ensures Join("\n", parts) == parts[0] + "\n" + Join("\n", parts[1..])
  {
  }

  /** A block ending in a dash, already collapsed, keeps its place ahead of the collapse of what follows. */
  lemma OpenBlock(q: string, j: string)
    requires q != [] && q[|q| - 1] == '-' && Collapse(q) == q
    ensures Collapse(q + "\n" + "\n" + j) == q + Collapse("\n\n" + j)
  {
    var nl, two := "\n", "\n\n";
    assert nl + nl == two;
    AppendAssoc(q, nl, nl);
    AppendAssoc(q, two, j);
    CollapseSplit(q, two + j);
  }

  /** The compiled document opens with the frontmatter block, closing "---" included. */
  lemma CompiledOpens(card: ScopeCard, canon: Canon, overlay: Overlay) returns (rest: string)
    requires '\n' !in SanitizeSkillName(card.goal) && '\n' !in DescriptionShort(card, overlay)
    ensures CompiledDocument(card, canon, overlay)
         == FrontBlock(SanitizeSkillName(card.goal), DescriptionShort(card, overlay)) + rest
  {
    var n, d := SanitizeSkillName(card.goal), DescriptionShort(card, overlay);
    var parts := DocumentParts(card, canon, overlay);
    Findings.PartsAre(card, canon, overlay);
    FrontmatterText(card, overlay);
    var q := FrontBlock(n, d);
    var j := Join("\n", parts[1..]);
    JoinHead(parts);
    assert parts[0] == q + "\n";
    FrontBlockFixed(n, d);
    assert q[|q| - 1] == '-';
    OpenBlock(q, j);
    rest := Collapse("\n\n" + j);
  }

  /** Gate 1 on any text that opens with a frontmatter block of a plain name and a plain description. */
  lemma GateOnBlock(n: string, d: string, rest: string)
    requires ':' !in n && '\n' !in n && '\n' !in d && d != [] && !IsSpace(d[0])
    ensures FrontmatterOf(FrontBlock(n, d) + rest) == Some(FrontBody(n, d))
    ensures DescriptionValue(FrontBody(n, d)) == Some(d)
    ensures DescriptionOutcome(FrontBlock(n, d) + rest).passed <==> |d| >= 50
  {
    FrontmatterRead(n, d, rest);
    DescriptionRead(n, d);
    DescriptionPasses(FrontBlock(n, d) + rest);
  }

  /**
   * Gate 1 on a compiled document: it finds the frontmatter the compiler
   * wrote, reads back the short description, and passes exactly when that
   * description has 50 or more characters.
   */
  lemma DescriptionGateOnCompiled(card: ScopeCard, canon: Canon, overlay: Overlay)
    requires '\n' !in card.goal && NoNewlines(Take(card.triggerWords, 3)) && NoNewlines(Take(overlay.requiredTools, 2))
    requires card.goal == [] || !IsSpace(card.goal[0])
    ensures FrontmatterOf(CompiledDocument(card, canon, overlay))
         == Some(FrontBody(SanitizeSkillName(card.goal), DescriptionShort(card, overlay)))
    ensures DescriptionValue(FrontBody(SanitizeSkillName(card.goal), DescriptionShort(card, overlay)))
         == Some(DescriptionShort(card, overlay))
    ensures DescriptionOutcome(CompiledDocument(card, canon, overlay)).passed
        <==> |DescriptionShort(card, overlay)| >= 50
  {
    var n, d := SanitizeSkillName(card.goal), DescriptionShort(card, overlay);
    NamePlain(card.goal);
    ShortPlain(card, overlay);
    assert !IsSpace('.');
    var rest := CompiledOpens(card, canon, overlay);
    GateOnBlock(n, d, rest);
  }

  function Max1(n: nat): nat { if n == 0 then 1 else n }
}
