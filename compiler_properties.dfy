/**
 * What the compiled sections promise: the shape of the skill name and the
 * short description, the line structure of the Quick Start and Edge Cases
 * sections, the fences of the Templates section, the symptom/fix pairs of
 * the Failure Modes section, and the shape of the assembled document.
 */
module CompilerProperties {
  import opened Wrappers
  import opened Text
  import opened Records
  import opened Compiler

  // ---------------------------------------------------------------- shared line facts

  predicate NoNewlines(xs: seq<string>) {
    forall k | 0 <= k < |xs| :: '\n' !in xs[k]
  }

  /** Splitting the lines built by `Lines` gives them back, followed by the split of what comes after. */
  lemma {:induction false} LinesSplit(ls: seq<string>, rest: string)
    requires NoNewlines(ls)
    ensures Split(Lines(ls) + rest, '\n') == ls + Split(rest, '\n')
    decreases |ls|
  {
    if ls != [] {
      var init := ls[..|ls| - 1];
      var last := ls[|ls| - 1];
      assert NoNewlines(init) by { assert forall k | 0 <= k < |init| :: init[k] == ls[k]; }
      LinesLast(ls, rest);
      LinesSplit(init, last + ['\n'] + rest);
      assert '\n' !in last;
      SplitAtSeparator(last, '\n', rest);
      SplitSnoc(init, last, Split(rest, '\n'));
      assert init + [last] == ls;
    } else {
      assert Lines(ls) + rest == rest;
    }
  }

  lemma LinesLast(ls: seq<string>, rest: string)
    requires ls != []
    ensures Lines(ls) + rest == Lines(ls[..|ls| - 1]) + (ls[|ls| - 1] + ['\n'] + rest)
  {
    var init, last := Lines(ls[..|ls| - 1]), ls[|ls| - 1];
    assert Lines(ls) == init + last + ['\n'];
    AppendAssoc(init, last, ['\n']);
    AppendAssoc(init, last + ['\n'], rest);
  }

  lemma SplitSnoc(init: seq<string>, last: string, tail: seq<string>)
    ensures init + ([last] + tail) == (init + [last]) + tail
  {
  }

  /** A title line followed by a blank line. */
  lemma HeadedSplit(title: string, body: string)
    requires '\n' !in title
    ensures Split(title + "\n\n" + body, '\n') == [title, ""] + Split(body, '\n')
  {
    assert title + "\n\n" + body == title + ['\n'] + ("" + ['\n'] + body);
    SplitAtSeparator(title, '\n', "" + ['\n'] + body);
    SplitAtSeparator("", '\n', body);
  }

  /** A section made of a one-line title, a blank line and newline-free lines, then a tail. */
  lemma SectionSplit(heading: string, title: string, items: seq<string>, tail: string)
    requires heading == title + "\n\n" && '\n' !in title && NoNewlines(items)
    ensures Split(heading + Lines(items) + tail, '\n') == [title, ""] + items + Split(tail, '\n')
  {
    assert heading + Lines(items) + tail == title + "\n\n" + (Lines(items) + tail);
    HeadedSplit(title, Lines(items) + tail);
    LinesSplit(items, tail);
  }

  lemma SplitNewline()
    ensures Split("\n", '\n') == ["", ""]
  {
    SplitAtSeparator("", '\n', "");
    assert "" + ['\n'] + "" == "\n";
  }

  lemma BulletsNoNewlines(xs: seq<string>)
    requires NoNewlines(xs)
    ensures NoNewlines(Bullets(xs))
  {
  }

  lemma TakeNoNewlines(xs: seq<string>, n: nat)
    requires NoNewlines(xs)
    ensures NoNewlines(Take(xs, n))
  {
    assert forall k | 0 <= k < |Take(xs, n)| :: Take(xs, n)[k] == xs[k];
  }

  // ---------------------------------------------------------------- skill name

  lemma AlnumNoDash(t: string)
    requires IsAlnum(t)
    ensures '-' !in t
  {
    assert forall i | 0 <= i < |t| :: t[i] != '-';
  }

  /** Splitting the skill name at its hyphens gives back its tokens. */
  lemma SanitizeSplits(goal: string)
    ensures |NameTokens(goal)| <= 3
    ensures NameTokens(goal) != [] ==> Split(SanitizeSkillName(goal), '-') == NameTokens(goal)
  {
    var ts := NameTokens(goal);
    forall k | 0 <= k < |ts| ensures '-' !in ts[k] {
      AlnumNoDash(ts[k]);
    }
    if ts != [] {
      assert "-" == ['-'];
      SplitJoin(ts, '-');
    }
  }

  lemma {:induction false} WordLenOf(w: string, rest: string)
    requires forall i | 0 <= i < |w| :: !IsSpace(w[i])
    requires rest == [] || IsSpace(rest[0])
    ensures WordLen(w + rest) == |w|
    decreases |w|
  {
    if w == [] {
      assert w + rest == rest;
    } else {
      assert (w + rest)[1..] == w[1..] + rest;
      WordLenOf(w[1..], rest);
    }
  }

  /** A word followed by a space, or by nothing, is the first word. */
  lemma WordsCons(w: string, rest: string)
    requires w != [] && forall i | 0 <= i < |w| :: !IsSpace(w[i])
    requires rest == [] || IsSpace(rest[0])
    ensures Words(w + rest) == [w] + Words(rest)
  {
    WordLenOf(w, rest);
    assert (w + rest)[..|w|] == w;
    assert (w + rest)[|w|..] == rest;
  }

  lemma WordsSpace(rest: string)
    ensures Words(" " + rest) == Words(rest)
  {
    assert (" " + rest)[1..] == rest;
  }

  function LowerAll(xs: seq<string>): (r: seq<string>)
    ensures |r| == |xs|
    ensures forall k | 0 <= k < |xs| :: r[k] == Lower(xs[k])
  {
    seq(|xs|, k requires 0 <= k < |xs| => Lower(xs[k]))
  }

  /** Lower-casing a join lower-cases the separator and every piece. */
  lemma {:induction false} LowerJoin(sep: string, xs: seq<string>)
    ensures Lower(Join(sep, xs)) == Join(Lower(sep), LowerAll(xs))
    decreases |xs|
  {
    if |xs| > 1 {
      LowerJoin(sep, xs[1..]);
      LowerAppend(xs[0] + sep, Join(sep, xs[1..]));
      LowerAppend(xs[0], sep);
      assert LowerAll(xs)[1..] == LowerAll(xs[1..]);
    }
  }

  /** Splitting a single-space join of non-empty, space-free words gives the words back. */
  lemma {:induction false} WordsJoin(ws: seq<string>)
    requires forall k | 0 <= k < |ws| :: ws[k] != [] && forall i | 0 <= i < |ws[k]| :: !IsSpace(ws[k][i])
    ensures Words(Join(" ", ws)) == ws
    decreases |ws|
  {
    if |ws| == 1 {
      WordsCons(ws[0], "");
      assert ws[0] + "" == ws[0];
    } else if |ws| > 1 {
      var rest := Join(" ", ws[1..]);
      WordsJoin(ws[1..]);
      assert Join(" ", ws) == ws[0] + (" " + rest);
      WordsCons(ws[0], " " + rest);
      WordsSpace(rest);
      assert [ws[0]] + ws[1..] == ws;
    }
  }

  /** Lower-casing keeps a word non-empty and space-free. */
  lemma LowerAllWords(ws: seq<string>)
    requires forall k | 0 <= k < |ws| :: ws[k] != [] && forall i | 0 <= i < |ws[k]| :: !IsSpace(ws[k][i])
    ensures forall k | 0 <= k < |ws| :: LowerAll(ws)[k] != [] && forall i | 0 <= i < |LowerAll(ws)[k]| :: !IsSpace(LowerAll(ws)[k][i])
  {
    forall k, i | 0 <= k < |ws| && 0 <= i < |ws[k]| ensures !IsSpace(LowerAll(ws)[k][i]) {
      assert LowerAll(ws)[k][i] == LowerChar(ws[k][i]);
    }
  }

  /**
   * A goal written as words separated by single spaces is named after its first
   * three kept words, lower-cased, joined with "-".
   */
  lemma SanitizeWords(ws: seq<string>)
    requires forall k | 0 <= k < |ws| :: ws[k] != [] && forall i | 0 <= i < |ws[k]| :: !IsSpace(ws[k][i])
    ensures NameTokens(Join(" ", ws)) == Take(KeptWords(LowerAll(ws)), 3)
    ensures SanitizeSkillName(Join(" ", ws)) == Join("-", Take(KeptWords(LowerAll(ws)), 3))
  {
    LowerJoin(" ", ws);
    assert Lower(" ") == " ";
    LowerAllWords(ws);
    WordsJoin(LowerAll(ws));
  }

  const ExampleGoal: string := "Create a skill for Python linting"
  const ExampleWords: seq<string> := ["Create", "a", "skill", "for", "Python", "linting"]
  const ExampleLowered: seq<string> := ["create", "a", "skill", "for", "python", "linting"]

  lemma ExampleJoin()
    ensures Join(" ", ExampleWords) == ExampleGoal
  {
    var ws := ExampleWords;
    assert Join(" ", ws[4..]) == "Python linting";
    assert Join(" ", ws[2..]) == "skill for " + "Python linting";
    assert Join(" ", ws) == "Create a " + ("skill for " + "Python linting");
  }

  lemma ExampleLower()
    ensures LowerAll(ExampleWords) == ExampleLowered
  {
    var ws := ExampleWords;
    forall k | 0 <= k < 6 ensures LowerAll(ws)[k] == ExampleLowered[k] {
      if k == 0 {
        LowerCapitalized('C', "reate");
      } else if k == 4 {
        LowerCapitalized('P', "ython");
      } else {
        LowerFixed(ws[k]);
      }
    }
  }

  lemma LowerCapital(c: char, rest: string)
    requires forall i | 0 <= i < |rest| :: !IsUpper(rest[i])
    ensures Lower([c] + rest) == [LowerChar(c)] + rest
  {
    LowerAppend([c], rest);
    LowerFixed(rest);
    assert Lower([c]) == [LowerChar(c)];
  }

  /** A capitalised lower-case word lower-cases to the word with its first letter lowered. */
  lemma LowerCapitalized(c: char, rest: string)
    requires 'A' <= c <= 'Z' && forall i | 0 <= i < |rest| :: 'a' <= rest[i] <= 'z'
    ensures Lower([c] + rest) == [(c as int + 32) as char] + rest
  {
    LowerCapital(c, rest);
  }

  lemma ExampleKept()
    ensures KeptWords(ExampleLowered) == ["python", "linting"]
  {
    var lower := ExampleLowered;
    assert lower[5..] == ["linting"] && lower[4..] == ["python"] + lower[5..];
    assert KeepWord("python") && KeepWord("linting");
    assert KeptWords(lower[5..]) == ["linting"];
    assert KeptWords(lower[4..]) == ["python", "linting"];
    assert !KeepWord(lower[0]) && !KeepWord(lower[1]) && !KeepWord(lower[2]) && !KeepWord(lower[3]);
    assert KeptWords(lower[3..]) == KeptWords(lower[4..]);
    assert KeptWords(lower[2..]) == KeptWords(lower[3..]);
    assert KeptWords(lower[1..]) == KeptWords(lower[2..]);
  }

  lemma ExampleWordsPlain()
    ensures forall k | 0 <= k < |ExampleWords| :: ExampleWords[k] != [] && forall i | 0 <= i < |ExampleWords[k]| :: !IsSpace(ExampleWords[k][i])
  {
  }

  lemma ExampleDash()
    ensures Join("-", ["python", "linting"]) == "python-linting"
  {
    assert Join("-", ["python", "linting"]) == "python" + "-" + "linting";
  }

  /** Space-separated words whose lower-cased kept words are known name the skill after them. */
  lemma SanitizeShape(ws: seq<string>, lower: seq<string>, kept: seq<string>)
    requires forall k | 0 <= k < |ws| :: ws[k] != [] && forall i | 0 <= i < |ws[k]| :: !IsSpace(ws[k][i])
    requires LowerAll(ws) == lower && KeptWords(lower) == kept && |kept| <= 3
    ensures SanitizeSkillName(Join(" ", ws)) == Join("-", kept)
  {
    SanitizeWords(ws);
    assert Take(kept, 3) == kept;
  }

  /** The source's own example: "Create a skill for Python linting" is named "python-linting". */
  lemma SanitizeExample()
    ensures Join(" ", ExampleWords) == ExampleGoal
    ensures SanitizeSkillName(Join(" ", ExampleWords)) == "python-linting"
  {
    ExampleJoin();
    ExampleWordsPlain();
    ExampleLower();
    ExampleKept();
    ExampleDash();
    SanitizeShape(ExampleWords, ExampleLowered, ["python", "linting"]);
  }

  // ---------------------------------------------------------------- short description

  /** The untruncated description up to and including the trigger list. */
  function TriggerPart(card: ScopeCard): string
  {
    card.goal + ". Triggers: " + Join(", ", Take(card.triggerWords, 3)) + "."
  }

  /** The short description starts like the goal-and-triggers text, and " Uses:" follows only when tools are required. */
  lemma DescriptionPrefix(card: ScopeCard, overlay: Overlay)
    ensures |DescriptionShort(card, overlay)| <= 200
    ensures DescriptionLong(card, overlay)[..|TriggerPart(card)|] == TriggerPart(card)
    ensures overlay.requiredTools == [] ==> DescriptionShort(card, overlay) == TriggerPart(card)[..|DescriptionShort(card, overlay)|]
  {
    assert card.goal + ". " + "Triggers: " == card.goal + ". Triggers: ";
  }

  /** When tools are required and the whole description fits in 200 characters, " Uses:" appears in it. */
  lemma DescriptionUses(card: ScopeCard, overlay: Overlay)
    ensures overlay.requiredTools != [] && |DescriptionLong(card, overlay)| <= 200 ==>
      Contains(DescriptionShort(card, overlay), " Uses:")
  {
    var d := DescriptionShort(card, overlay);
    var long := DescriptionLong(card, overlay);
    if overlay.requiredTools != [] && |long| <= 200 {
      var tools := " Uses: " + Join(", ", Take(overlay.requiredTools, 2)) + ".";
      assert d == long;
      assert long == card.goal + ". " + "Triggers: " + Join(", ", Take(card.triggerWords, 3)) + "." + tools;
      assert tools == " Uses:" + (" " + Join(", ", Take(overlay.requiredTools, 2)) + ".");
      var front := card.goal + ". " + "Triggers: " + Join(", ", Take(card.triggerWords, 3)) + ".";
      var back := " " + Join(", ", Take(overlay.requiredTools, 2)) + ".";
      assert d == front + " Uses:" + back;
      OccursInfix(front, " Uses:", back);
    }
  }

  const UsesMarker: string := " Uses:"

  /**
   * " Uses:" appears only when tools are required, as long as the goal does not hold
   * " Uses:" and none of the first three triggers holds "Uses:" (a trigger starting with
   * "Uses:" would spell the marker after the space that precedes it).
   */
  lemma UsesOnlyWithTools(card: ScopeCard, overlay: Overlay)
    requires !Contains(card.goal, " Uses:")
    requires forall t | t in Take(card.triggerWords, 3) :: !Contains(t, "Uses:")
    ensures Contains(DescriptionShort(card, overlay), " Uses:") ==> overlay.requiredTools != []
  {
    if overlay.requiredTools == [] {
      var tp := TriggerPart(card);
      var d := DescriptionShort(card, overlay);
      TriggerPartUnmarked(card);
      DescriptionPrefix(card, overlay);
      assert d == tp[..|d|];
      forall i | 0 <= i <= |d| ensures !OccursAt(d, UsesMarker, i) {
        CountZeroAbsent(tp, UsesMarker, 0, i);
        if i + |UsesMarker| <= |d| {
          assert d[i..i + |UsesMarker|] == tp[i..i + |UsesMarker|];
        }
      }
    }
  }

  /** Under the same conditions the goal-and-triggers text holds no " Uses:". */
  lemma TriggerPartUnmarked(card: ScopeCard)
    requires !Contains(card.goal, " Uses:")
    requires forall t | t in Take(card.triggerWords, 3) :: !Contains(t, "Uses:")
    ensures Count(TriggerPart(card), UsesMarker) == 0
  {
    var p := UsesMarker;
    var g := card.goal;
    var j := Join(", ", Take(card.triggerWords, 3));
    assert TriggerPart(card) == g + ['.'] + (" Triggers: " + j + ".");
    CountZero(g, p, 0);
    CountSeparated(g, '.', " Triggers: " + j + ".", p);
    assert " Triggers: " + j + "." == (" Triggers: " + j) + ['.'] + "";
    CountSeparated(" Triggers: " + j, '.', "", p);
    TriggersUnmarked(j);
    SpacedJoinUnmarked(Take(card.triggerWords, 3));
  }

  /** The text " Triggers: " adds no marker in front of a space-led text. */
  lemma TriggersUnmarked(j: string)
    ensures Count(" Triggers: " + j, UsesMarker) == Count(" " + j, UsesMarker)
  {
    var p := UsesMarker;
    assert " Triggers: " + j == " Tr" + ['i'] + ("" + ['g'] + ("" + ['g'] + ("e" + ['r'] + ("s: " + j))));
    CountSeparated(" Tr", 'i', "" + ['g'] + ("" + ['g'] + ("e" + ['r'] + ("s: " + j))), p);
    CountSeparated("", 'g', "" + ['g'] + ("e" + ['r'] + ("s: " + j)), p);
    CountSeparated("", 'g', "e" + ['r'] + ("s: " + j), p);
    CountSeparated("e", 'r', "s: " + j, p);
    ShortAbsent(" Tr", p);
    CountZero(" Tr", p, 0);
    ShortAbsent("", p);
    CountZero("", p, 0);
    ShortAbsent("e", p);
    CountZero("e", p, 0);
    var s := "s: " + j;
    assert s == "s:" + (" " + j);
    assert !OccursAt(s, p, 0) by {
      if 6 <= |s| {
        assert s[0..6][0] == 's';
      }
    }
    assert !OccursAt(s, p, 1) by {
      if 7 <= |s| {
        assert s[1..7][0] == ':';
      }
    }
    assert CountFrom(s, p, 0) == CountFrom(s, p, 1) == CountFrom(s, p, 2);
    CountShift("s:", " " + j, p, 0);
  }

  /** A space followed by a text without "Uses:" holds no " Uses:". */
  lemma SpaceUnmarked(t: string)
    requires !Contains(t, "Uses:")
    ensures Count(" " + t, UsesMarker) == 0
  {
    var p := UsesMarker;
    var s := " " + t;
    assert !OccursAt(s, p, 0) by {
      if 6 <= |s| {
        assert s[0..6][1..] == t[0..5];
        assert !OccursAt(t, "Uses:", 0);
      }
    }
    forall i | 0 <= i <= |t| ensures !OccursAt(t, p, i) {
      if i + 6 <= |t| {
        assert t[i..i + 6][1..] == t[i + 1..i + 6];
        assert !OccursAt(t, "Uses:", i + 1);
      }
    }
    CountZero(t, p, 0);
    CountShift(" ", t, p, 0);
  }

  /** A ", "-join of texts without "Uses:", led by a space, holds no " Uses:". */
  lemma {:induction false} SpacedJoinUnmarked(ts: seq<string>)
    requires forall t | t in ts :: !Contains(t, "Uses:")
    ensures Count(" " + Join(", ", ts), UsesMarker) == 0
    decreases |ts|
  {
    var p := UsesMarker;
    if ts == [] {
      ShortAbsent(" ", p);
      CountZero(" ", p, 0);
    } else if |ts| == 1 {
      SpaceUnmarked(ts[0]);
    } else {
      var rest := Join(", ", ts[1..]);
      assert ts[0] in ts;
      assert forall t | t in ts[1..] :: t in ts;
      SpaceUnmarked(ts[0]);
      SpacedJoinUnmarked(ts[1..]);
      assert " " + Join(", ", ts) == (" " + ts[0]) + [','] + (" " + rest);
      CountSeparated(" " + ts[0], ',', " " + rest, p);
    }
  }

  // ---------------------------------------------------------------- quick start

  lemma NumberedNoNewlines(steps: seq<string>)
    requires NoNewlines(steps)
    ensures NoNewlines(Numbered(steps))
  {
    forall k | 0 <= k < |steps| ensures '\n' !in Numbered(steps)[k] {
      var n := NatToString(k + 1);
      assert forall i | 0 <= i < |n| :: n[i] != '\n';
      assert '\n' !in Strip(steps[k]);
    }
  }

  lemma QuickstartStepsNoNewlines(canon: Canon)
    ensures NoNewlines(QuickstartSteps(canon))
  {
    if canon.quickstart != "" {
      TakeNoNewlines(Split(canon.quickstart, '\n'), 3);
    }
  }

  /**
   * The Quick Start section is its heading, a blank line, one numbered line per
   * step and a blank line; there are min(3, lines) steps, or three placeholders.
   */
  lemma QuickstartLines(canon: Canon)
    ensures Split(QuickstartSection(canon), '\n')
         == ["## Quick Start", ""] + Numbered(QuickstartSteps(canon)) + ["", ""]
    ensures |Numbered(QuickstartSteps(canon))|
         == if canon.quickstart == "" then 3 else Min(3, LineCount(canon.quickstart))
  {
    var ns := Numbered(QuickstartSteps(canon));
    QuickstartStepsNoNewlines(canon);
    NumberedNoNewlines(QuickstartSteps(canon));
    QuickTitleShape();
    SectionSplit(QuickstartHeading, "## Quick Start", ns, "\n");
    SplitNewline();
  }

  lemma QuickTitleShape()
    ensures QuickstartHeading == "## Quick Start" + "\n\n" && '\n' !in "## Quick Start"
  {
  }

  // ---------------------------------------------------------------- templates

  predicate TickFree(t: Template) {
    '`' !in t.name && '`' !in t.content
  }

  /** A template block holds its own two fences plus whatever its name and content hold. */
  lemma BlockFences(t: Template)
    ensures Count(TemplateBlock(t), "```")
         == 2 + Count("### " + t.name + "\n\n", "```") + Count("\n" + t.content + "\n", "```")
    ensures TickFree(t) ==> Count(TemplateBlock(t), "```") == 2
  {
    var x := "### " + t.name + "\n\n";
    var y := "\n" + t.content + "\n";
    assert TemplateBlock(t) == x + ("```" + (y + ("```" + "\n\n")));
    CountConcat(x, "```" + (y + ("```" + "\n\n")), "```");
    CountConcat("```", y + ("```" + "\n\n"), "```");
    CountConcat(y, "```" + "\n\n", "```");
    CountConcat("```", "\n\n", "```");
    CountSelf("```");
    if TickFree(t) {
      CountAbsent(x, "```", 0);
      CountAbsent(y, "```", 0);
    }
  }

  lemma {:induction false} BlocksFences(ts: seq<Template>)
    ensures Count(Blocks(ts), "```") >= 2 * |ts|
    ensures (forall k | 0 <= k < |ts| :: TickFree(ts[k])) ==> Count(Blocks(ts), "```") == 2 * |ts|
    decreases |ts|
  {
    if ts != [] {
      var init := ts[..|ts| - 1];
      var last := ts[|ts| - 1];
      BlocksFences(init);
      BlockFences(last);
      assert TemplateBlock(last)[0] == '#';
      CountConcat(Blocks(init), TemplateBlock(last), "```");
      assert (forall k | 0 <= k < |ts| :: TickFree(ts[k])) ==> forall k | 0 <= k < |init| :: TickFree(init[k]) by {
        assert forall k | 0 <= k < |init| :: init[k] == ts[k];
      }
    } else {
      assert Blocks(ts) == "";
    }
  }

  /** The heading holds no fence, and a body starting with '#' cannot join one with it. */
  lemma HeadingFences(body: string)
    requires body == [] || body[0] == '#'
    ensures Count(TemplatesHeading + body, "```") == Count(body, "```")
  {
    CountAbsent(TemplatesHeading, "```", 0);
    CountConcat(TemplatesHeading, body, "```");
  }

  lemma TakeTickFree(ts: seq<Template>, n: nat)
    requires forall k | 0 <= k < |ts| :: TickFree(ts[k])
    ensures forall k | 0 <= k < |Take(ts, n)| :: TickFree(Take(ts, n)[k])
  {
    assert forall k | 0 <= k < |Take(ts, n)| :: Take(ts, n)[k] == ts[k];
  }

  lemma BlocksStartHash(ts: seq<Template>)
    requires ts != []
    ensures Blocks(ts) != [] && Blocks(ts)[0] == '#'
  {
    assert Blocks(ts) == Blocks(ts[..|ts| - 1]) + TemplateBlock(ts[|ts| - 1]);
    BlocksStart(ts[..|ts| - 1], TemplateBlock(ts[|ts| - 1]));
  }

  lemma CanonTemplatesFences(canon: Canon)
    requires canon.templates != []
    ensures Count(TemplatesSection(canon), "```") >= 2 * Min(5, |canon.templates|)
    ensures (forall k | 0 <= k < |canon.templates| :: TickFree(canon.templates[k])) ==>
      Count(TemplatesSection(canon), "```") == 2 * Min(5, |canon.templates|)
  {
    var ts := Take(canon.templates, 5);
    BlocksFences(ts);
    BlocksStartHash(ts);
    HeadingFences(Blocks(ts));
    if forall k | 0 <= k < |canon.templates| :: TickFree(canon.templates[k]) {
      TakeTickFree(canon.templates, 5);
    }
  }

  const PlaceholderTemplate: Template := Template("Default Template", PlaceholderContent)

  lemma PlaceholderBlock()
    ensures DefaultTemplate == TemplateBlock(PlaceholderTemplate)
  {
    assert "### Default Template\n\n" == "### " + "Default Template" + "\n\n";
  }

  lemma PlaceholderTickFree()
    ensures TickFree(PlaceholderTemplate)
  {
    assert '`' !in "Default Template";
    assert '`' !in "[Template content" && '`' !in " will be added]";
  }

  lemma DefaultTemplateFences(canon: Canon)
    requires canon.templates == []
    ensures Count(TemplatesSection(canon), "```") == 2
  {
    PlaceholderBlock();
    PlaceholderTickFree();
    BlockFences(PlaceholderTemplate);
    HeadingFences(TemplateBlock(PlaceholderTemplate));
  }

  /**
   * The Templates section holds two fences per emitted template (the first five),
   * or the two of the placeholder block; never fewer than two.
   */
  lemma TemplatesFences(canon: Canon)
    ensures Count(TemplatesSection(canon), "```") >= 2
    ensures canon.templates != [] ==> Count(TemplatesSection(canon), "```") >= 2 * Min(5, |canon.templates|)
    ensures (forall k | 0 <= k < |canon.templates| :: TickFree(canon.templates[k])) ==>
      Count(TemplatesSection(canon), "```") == if canon.templates == [] then 2 else 2 * Min(5, |canon.templates|)
  {
    if canon.templates != [] {
      CanonTemplatesFences(canon);
    } else {
      DefaultTemplateFences(canon);
    }
  }

  lemma BlocksStart(init: seq<Template>, block: string)
    requires block != [] && block[0] == '#'
    ensures (Blocks(init) + block)[0] == '#'
  {
    if Blocks(init) != [] {
      BlocksFirst(init);
    }
  }

  lemma {:induction false} BlocksFirst(ts: seq<Template>)
    requires Blocks(ts) != []
    ensures Blocks(ts)[0] == '#'
    decreases |ts|
  {
    var init := ts[..|ts| - 1];
    if Blocks(init) != [] {
      BlocksFirst(init);
    }
  }

  // ---------------------------------------------------------------- failure modes

  predicate ColonFree(m: FailureMode) {
    ':' !in m.symptom && ':' !in m.fix
  }

  /** A failure mode whose texts have no colon holds one symptom marker and one fix marker. */
  lemma ModeCount(m: FailureMode, p: string)
    requires ColonFree(m)
    requires p == "**Symptom**:" || p == "**Fix**:"
    ensures Count(ModeText(m), p) == 1
  {
    assert p[|p| - 1] == ':' && ' ' !in p && '\n' !in p;
    ModeMarkers(m, p);
    MarkersOnce(p);
  }

  /** Any colon-ended marker without spaces or newlines is found only inside the two labels. */
  lemma ModeMarkers(m: FailureMode, p: string)
    requires ColonFree(m)
    requires |p| > 0 && p[|p| - 1] == ':' && ' ' !in p && '\n' !in p
    ensures Count(ModeText(m), p) == Count("**Symptom**:", p) + Count("**Fix**:", p)
  {
    var tail := m.fix + ['\n'] + "\n";
    var fixPart := "**Fix**:" + [' '] + tail;
    var symPart := m.symptom + ['\n'] + fixPart;
    assert ModeText(m) == "**Symptom**:" + [' '] + symPart;
    CountSeparated("**Symptom**:", ' ', symPart, p);
    CountSeparated(m.symptom, '\n', fixPart, p);
    CountSeparated("**Fix**:", ' ', tail, p);
    CountSeparated(m.fix, '\n', "\n", p);
    CountAbsent(m.symptom, p, |p| - 1);
    CountAbsent(m.fix, p, |p| - 1);
    CountAbsent("\n", p, |p| - 1);
  }

  lemma MarkersOnce(p: string)
    requires p == "**Symptom**:" || p == "**Fix**:"
    ensures Count("**Symptom**:", p) + Count("**Fix**:", p) == 1
  {
    CountSelf(p);
    if p == "**Symptom**:" {
      CountAbsent("**Fix**:", p, 2);
    } else {
      CountAbsent("**Symptom**:", p, 2);
    }
  }

  lemma {:induction false} ModesCount(ms: seq<FailureMode>, p: string)
    requires forall k | 0 <= k < |ms| :: ColonFree(ms[k])
    requires p == "**Symptom**:" || p == "**Fix**:"
    ensures Count(Modes(ms), p) == |ms|
    ensures ms != [] ==> Modes(ms) != [] && Modes(ms)[|Modes(ms)| - 1] == '\n'
    decreases |ms|
  {
    if ms != [] {
      var init := ms[..|ms| - 1];
      var last := ms[|ms| - 1];
      assert forall k | 0 <= k < |init| :: init[k] == ms[k];
      ModesCount(init, p);
      ModeCount(last, p);
      assert Modes(ms) == Modes(init) + ModeText(last);
      CountConcat(Modes(init), ModeText(last), p);
    } else {
      assert Modes(ms) == "";
    }
  }

  lemma DefaultSymptomPieces()
    ensures DefaultSymptom == "-" + [' '] + ("**Symptom**:" + [' '] + SymptomText)
  {
    var lead := "- **Symptom**: ";
    assert lead == "-" + [' '] + "**Symptom**:" + [' '];
    AppendAssoc("-" + [' '], "**Symptom**:" + [' '], SymptomText);
  }

  lemma DefaultFixPieces()
    ensures DefaultFix == "" + [' '] + ("" + [' '] + ("**Fix**:" + [' '] + FixText))
  {
    var lead := "  **Fix**: ";
    assert lead == [' '] + [' '] + "**Fix**:" + [' '];
    AppendAssoc([' '] + [' '], "**Fix**:" + [' '], FixText);
    AppendAssoc([' '], [' '], "**Fix**:" + [' '] + FixText);
  }

  lemma DefaultTextsColonFree()
    ensures ':' !in SymptomText && ':' !in FixText
  {
  }

  /** Counting a marker ending in ':' across a space, where the text after the space has no colon. */
  lemma MarkedCount(lead: string, p: string, text: string)
    requires |p| > 0 && p[|p| - 1] == ':' && ' ' !in p && ':' !in text
    ensures Count(lead + [' '] + text, p) == Count(lead, p)
  {
    CountSeparated(lead, ' ', text, p);
    CountAbsent(text, p, |p| - 1);
  }

  lemma DefaultSymptomCount(p: string)
    requires p == "**Symptom**:" || p == "**Fix**:"
    ensures Count(DefaultSymptom, p) == (if p == "**Symptom**:" then 1 else 0)
  {
    DefaultSymptomPieces();
    DefaultTextsColonFree();
    var marked := "**Symptom**:" + [' '] + SymptomText;
    assert p[|p| - 1] == ':' && ' ' !in p;
    CountSeparated("-", ' ', marked, p);
    CountAbsent("-", p, |p| - 1);
    MarkedCount("**Symptom**:", p, SymptomText);
    if p == "**Symptom**:" {
      CountSelf(p);
    } else {
      CountAbsent("**Symptom**:", p, 2);
    }
  }

  lemma DefaultFixCount(p: string)
    requires p == "**Symptom**:" || p == "**Fix**:"
    ensures Count(DefaultFix, p) == (if p == "**Fix**:" then 1 else 0)
  {
    DefaultFixPieces();
    DefaultTextsColonFree();
    var marked := "**Fix**:" + [' '] + FixText;
    var indent := "" + [' '] + marked;
    assert p[|p| - 1] == ':' && ' ' !in p;
    CountSeparated("", ' ', indent, p);
    CountSeparated("", ' ', marked, p);
    MarkedCount("**Fix**:", p, FixText);
    if p == "**Fix**:" {
      CountSelf(p);
    } else {
      CountAbsent("**Fix**:", p, 2);
    }
  }

  /** The placeholder pair holds one symptom marker and one fix marker. */
  lemma DefaultModeCount(p: string)
    requires p == "**Symptom**:" || p == "**Fix**:"
    ensures Count(DefaultSymptom + DefaultFix, p) == 1
  {
    DefaultSymptomCount(p);
    DefaultFixCount(p);
    assert DefaultSymptom[|DefaultSymptom| - 1] == '\n';
    CountConcat(DefaultSymptom, DefaultFix, p);
  }

  lemma {:induction false} LinesAbsent(c: char, ls: seq<string>)
    requires c != '\n' && forall k | 0 <= k < |ls| :: c !in ls[k]
    ensures c !in Lines(ls)
    decreases |ls|
  {
    if ls != [] {
      var init := ls[..|ls| - 1];
      assert forall k | 0 <= k < |init| :: init[k] == ls[k];
      LinesAbsent(c, init);
    }
  }

  /** With colon-free overlay history, the history block holds no colon at all. */
  lemma HistoryColonFree(overlay: Overlay)
    requires forall k | 0 <= k < |overlay.failureHistory| :: ':' !in overlay.failureHistory[k]
    ensures ':' !in HistoryBlock(overlay)
  {
    if overlay.failureHistory != [] {
      var h := Take(overlay.failureHistory, 3);
      assert forall k | 0 <= k < |h| :: h[k] == overlay.failureHistory[k];
      assert forall k | 0 <= k < |h| :: ':' !in Bullets(h)[k] by {
        assert ':' !in "- ";
      }
      LinesAbsent(':', Bullets(h));
      HeadingColonFree();
    }
  }

  lemma HeadingColonFree()
    ensures ':' !in HistoryHeading
  {
    assert ':' !in "### Common Failures" && ':' !in " in Your Context\n\n";
    assert HistoryHeading == "### Common Failures" + " in Your Context\n\n";
  }

  lemma ModesBodyCount(canon: Canon, p: string)
    requires forall k | 0 <= k < |canon.failureModes| :: ColonFree(canon.failureModes[k])
    requires p == "**Symptom**:" || p == "**Fix**:"
    ensures Count(ModesBody(canon), p) == if canon.failureModes == [] then 1 else Min(5, |canon.failureModes|)
    ensures ModesBody(canon) != [] && ModesBody(canon)[|ModesBody(canon)| - 1] == '\n'
  {
    if canon.failureModes != [] {
      var ms := Take(canon.failureModes, 5);
      assert forall k | 0 <= k < |ms| :: ms[k] == canon.failureModes[k];
      ModesCount(ms, p);
    } else {
      DefaultModeCount(p);
    }
  }

  /**
   * Failure Modes holds one symptom/fix pair per emitted canon failure mode (the first
   * five) or the placeholder pair, when the texts carry no colon of their own.
   */
  lemma FailureModesPairs(canon: Canon, overlay: Overlay, p: string)
    requires forall k | 0 <= k < |canon.failureModes| :: ColonFree(canon.failureModes[k])
    requires forall k | 0 <= k < |overlay.failureHistory| :: ':' !in overlay.failureHistory[k]
    requires p == "**Symptom**:" || p == "**Fix**:"
    ensures Count(FailureModesSection(canon, overlay), p)
         == if canon.failureModes == [] then 1 else Min(5, |canon.failureModes|)
  {
    var body := ModesBody(canon);
    ModesBodyCount(canon, p);
    assert p[|p| - 1] == ':';
    CountAbsent(FailureModesHeading, p, |p| - 1);
    CountConcat(FailureModesHeading, body, p);
    HistoryColonFree(overlay);
    CountAbsent(HistoryBlock(overlay), p, |p| - 1);
    CountConcat(FailureModesHeading + body, HistoryBlock(overlay), p);
  }

  /** The history block is its heading, a blank line, at most three bullets and a blank line. */
  lemma HistoryLines(overlay: Overlay)
    requires overlay.failureHistory != [] && NoNewlines(overlay.failureHistory)
    ensures Split(HistoryBlock(overlay), '\n')
         == ["### Common Failures in Your Context", ""] + Bullets(Take(overlay.failureHistory, 3)) + ["", ""]
    ensures |Bullets(Take(overlay.failureHistory, 3))| == Min(3, |overlay.failureHistory|)
  {
    var bs := Bullets(Take(overlay.failureHistory, 3));
    TakeNoNewlines(overlay.failureHistory, 3);
    HistoryTitleShape();
    SectionSplit(HistoryHeading, "### Common Failures in Your Context", bs, "\n");
    SplitNewline();
  }

  lemma HistoryTitleShape()
    ensures HistoryHeading == "### Common Failures in Your Context" + "\n\n"
    ensures '\n' !in "### Common Failures in Your Context"
  {
  }

  // ---------------------------------------------------------------- edge cases

  const DefaultEdgeItems: seq<string> := ["- Empty input", "- Boundary conditions", "- Unusual combinations"]

  /** The bullet lines the Edge Cases section lists first. */
  function EdgeItems(canon: Canon): seq<string>
  {
    if canon.edgeCases != [] then Bullets(Take(canon.edgeCases, 5)) else DefaultEdgeItems
  }

  /** The lines of the out-of-scope sub-section: a blank line, its title, at most three bullets. */
  function OutOfScopeLines(card: ScopeCard): seq<string>
  {
    if card.mustNotCover != [] then ["", OutOfScopeTitle] + Bullets(Take(card.mustNotCover, 3)) else []
  }

  lemma DefaultEdgeLines()
    ensures DefaultEdgeCases == Lines(DefaultEdgeItems)
  {
    var a, b, c := "- Empty input", "- Boundary conditions", "- Unusual combinations";
    LinesSnoc([], a);
    LinesSnoc([a], b);
    LinesSnoc([a, b], c);
    assert [] + [a] == [a] && [a] + [b] == [a, b] && [a, b] + [c] == DefaultEdgeItems;
  }

  lemma EdgeBodyLines(canon: Canon)
    requires NoNewlines(canon.edgeCases)
    ensures EdgeBody(canon) == Lines(EdgeItems(canon))
    ensures NoNewlines(EdgeItems(canon))
    ensures |EdgeItems(canon)| == if canon.edgeCases != [] then Min(5, |canon.edgeCases|) else 3
  {
    if canon.edgeCases != [] {
      TakeNoNewlines(canon.edgeCases, 5);
    } else {
      DefaultEdgeLines();
    }
  }

  lemma OutOfScopePieces()
    ensures OutOfScopeHeading == "" + ['\n'] + OutOfScopeTitle + ['\n']
    ensures '\n' !in OutOfScopeTitle
  {
    assert '\n' !in "### Out of Scope " && '\n' !in "(Related But Not Covered)";
  }

  lemma OutOfScopeBulletsSplit(bs: seq<string>)
    requires NoNewlines(bs)
    ensures Split(OutOfScopeHeading + Lines(bs) + "\n", '\n') == ["", OutOfScopeTitle] + bs + ["", ""]
  {
    OutOfScopePieces();
    assert OutOfScopeHeading + Lines(bs) + "\n" == "" + ['\n'] + (OutOfScopeTitle + ['\n'] + (Lines(bs) + "\n"));
    SplitAtSeparator("", '\n', OutOfScopeTitle + ['\n'] + (Lines(bs) + "\n"));
    SplitAtSeparator(OutOfScopeTitle, '\n', Lines(bs) + "\n");
    LinesSplit(bs, "\n");
    SplitNewline();
  }

  lemma OutOfScopeSplit(card: ScopeCard)
    requires NoNewlines(card.mustNotCover)
    ensures Split(OutOfScopeBlock(card) + "\n", '\n') == OutOfScopeLines(card) + ["", ""]
    ensures |OutOfScopeLines(card)| == if card.mustNotCover != [] then 2 + Min(3, |card.mustNotCover|) else 0
  {
    if card.mustNotCover != [] {
      TakeNoNewlines(card.mustNotCover, 3);
      OutOfScopeBulletsSplit(Bullets(Take(card.mustNotCover, 3)));
    } else {
      SplitNewline();
      assert OutOfScopeBlock(card) + "\n" == "\n";
    }
  }

  /**
   * Edge Cases is its heading, a blank line, min(5, n) canon bullets or three
   * defaults, then, when must_not_cover is non-empty, a blank line, the
   * out-of-scope title and at most three bullets, and a final blank line.
   */
  lemma EdgeCasesLines(card: ScopeCard, canon: Canon)
    requires NoNewlines(canon.edgeCases) && NoNewlines(card.mustNotCover)
    ensures Split(EdgeCasesSection(card, canon), '\n')
         == ["## Edge Cases", ""] + EdgeItems(canon) + OutOfScopeLines(card) + ["", ""]
    ensures |EdgeItems(canon)| == if canon.edgeCases != [] then Min(5, |canon.edgeCases|) else 3
    ensures |OutOfScopeLines(card)| == if card.mustNotCover != [] then 2 + Min(3, |card.mustNotCover|) else 0
  {
    var items := EdgeItems(canon);
    EdgeBodyLines(canon);
    OutOfScopeSplit(card);
    EdgeTitleShape();
    TailSplit(EdgeCasesHeading, "## Edge Cases", items, OutOfScopeBlock(card));
  }

  lemma EdgeTitleShape()
    ensures EdgeCasesHeading == "## Edge Cases" + "\n\n" && '\n' !in "## Edge Cases"
  {
  }

  lemma TailSplit(heading: string, title: string, items: seq<string>, block: string)
    requires heading == title + "\n\n" && '\n' !in title && NoNewlines(items)
    ensures Split(heading + Lines(items) + block + "\n", '\n') == [title, ""] + items + Split(block + "\n", '\n')
  {
    assert heading + Lines(items) + block + "\n" == heading + Lines(items) + (block + "\n");
    SectionSplit(heading, title, items, block + "\n");
  }

  // ---------------------------------------------------------------- assembly

  /**
   * The compiled document has no run of three newlines, is unchanged by a second
   * collapse, and keeps every non-newline character of its parts in order.
   */
  lemma DocumentShape(card: ScopeCard, canon: Canon, overlay: Overlay)
    ensures NoTriple(CompiledDocument(card, canon, overlay))
    ensures !Contains(CompiledDocument(card, canon, overlay), "\n\n\n")
    ensures Collapse(CompiledDocument(card, canon, overlay)) == CompiledDocument(card, canon, overlay)
    ensures DropNewlines(CompiledDocument(card, canon, overlay))
         == DropNewlines(Join("\n", DocumentParts(card, canon, overlay)))
  {
    var joined := Join("\n", DocumentParts(card, canon, overlay));
    CollapseNoTriple(joined);
    NoTripleNoRun(Collapse(joined));
    CollapseIdempotent(joined);
    CollapseKeepsText(joined);
  }

  /** Assembling a map that has every section lays them out after the frontmatter in the fixed order. */
  lemma AssembleOrder(frontmatter: string, sections: map<string, string>)
    requires "description" in sections && "when_to_use" in sections && "quickstart" in sections
    requires "workflow" in sections && "guardrails" in sections && "templates" in sections
    requires "failure_modes" in sections && "edge_cases" in sections && "references" in sections
    ensures [frontmatter] + Present(SectionOrder, sections) ==
      [frontmatter, sections["description"], sections["when_to_use"], sections["quickstart"], sections["workflow"],
       sections["guardrails"], sections["templates"], sections["failure_modes"], sections["edge_cases"],
       sections["references"]]
  {
    var o := SectionOrder;
    assert o[0] == "description" && o[1] == "when_to_use" && o[2] == "quickstart";
    assert o[3] == "workflow" && o[4] == "guardrails" && o[5] == "templates";
    assert o[6] == "failure_modes" && o[7] == "edge_cases" && o[8] == "references";
    PresentAllKeys(o, sections);
  }
}
