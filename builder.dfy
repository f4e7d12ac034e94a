/**
 * Step 1: the scope-card builder. It keeps one card that its methods
 * overwrite field by field: from six answers in interactive mode, from the
 * request alone otherwise. An invalid interactive card is repaired once, by
 * re-prompting for the fields that the error messages are routed to.
 * User answers are a stream `input`, read from index `at` on.
 */
module ScopeBuilder {
  import opened Text
  import opened Records

  // ---------------------------------------------------------------- comma lists

  /** [t.strip() for t in answer.strip().split(",") if t.strip()]. */
  function CommaItems(answer: string): (items: seq<string>)
    ensures forall k | 0 <= k < |items| :: items[k] != [] && Strip(items[k]) == items[k]
    ensures forall k | 0 <= k < |items| :: ',' !in items[k]
  {
    var pieces := Split(Strip(answer), ',');
    NonBlankAbsent(pieces, ',');
    NonBlank(pieces)
  }

  /** Trimmed, non-empty, comma-free items written comma-separated are read back unchanged. */
  lemma CommaRoundTrip(xs: seq<string>)
    requires xs != []
    requires forall k | 0 <= k < |xs| :: xs[k] != [] && Strip(xs[k]) == xs[k] && ',' !in xs[k]
    ensures CommaItems(Join(",", xs)) == xs
  {
    var j := Join(",", xs);
    JoinEnds(",", xs);
    StripFixed(j);
    SplitJoin(xs, ',');
    NonBlankFixed(xs);
  }

  /** An answer holding only whitespace and commas gives no items. */
  lemma {:induction false} CommaItemsBlank(answer: string)
    requires forall k | 0 <= k < |answer| :: IsSpace(answer[k])
    ensures CommaItems(answer) == []
  {
    assert Strip(answer) == [];
    assert Split([], ',') == [[]];
    assert Strip([]) == [];
  }

  // ---------------------------------------------------------------- _validate

  const GoalMessage: string := "Goal must be " + "at least 10 characters"
  const TriggerPrefix: string := "Need 5+ " + "trigger phrases, " + "have "
  const MustCoverPrefix: string := "Need 3+ " + "must_cover" + " items, have "
  const MustNotCoverPrefix: string := "Need 3+ " + "must_not_cover" + " items, have "
  const OutputMessage: string := "Output format " + "must be specified"
  const CriteriaMessage: string := "Need at least 1 " + "success criterion"

  /** The builder's message for a broken rule, with the current count where it reports one. */
  function BuilderMessage(rule: ScopeRule, card: ScopeCard): string
  {
    match rule
    case GoalLength => GoalMessage
    case TriggerCount => TriggerPrefix + NatToString(|card.triggerWords|)
    case MustCoverCount => MustCoverPrefix + NatToString(|card.mustCover|)
    case MustNotCoverCount => MustNotCoverPrefix + NatToString(|card.mustNotCover|)
    case OutputFormGiven => OutputMessage
    case CriteriaGiven => CriteriaMessage
  }

  /** The messages one rule contributes: none when the card meets it. */
  function Report(rule: ScopeRule, card: ScopeCard): seq<string>
  {
    if Holds(rule, card) then [] else [BuilderMessage(rule, card)]
  }

  /** The error list of _validate: one message per broken rule, in rule order, so at most six. */
  function BuilderErrors(card: ScopeCard): (errors: seq<string>)
    ensures |errors| <= 6
    ensures errors == [] <==> Complete(card)
  {
    Report(GoalLength, card) + Report(TriggerCount, card) + Report(MustCoverCount, card) +
    Report(MustNotCoverCount, card) + Report(OutputFormGiven, card) + Report(CriteriaGiven, card)
  }

  // ---------------------------------------------------------------- _fix_errors routing

  /** The card field an error message makes _fix_errors ask for again. */
  datatype Field = GoalField | TriggerField | MustCoverField | MustNotCoverField | NoField

  /** The if/elif chain of _fix_errors over the lower-cased message. */
  function Route(error: string): Field
  {
    var e := Lower(error);
    if Contains(e, "trigger_words") then TriggerField
    else if Contains(e, "must_cover") then MustCoverField
    else if Contains(e, "must_not_cover") then MustNotCoverField
    else if Contains(e, "goal") then GoalField
    else NoField
  }

  /** The field each rule's builder message is routed to. */
  function Prompted(rule: ScopeRule): Field
  {
    match rule
    case GoalLength => GoalField
    case MustCoverCount => MustCoverField
    case MustNotCoverCount => MustNotCoverField
    case _ => NoField
  }

  /** A message without '_' cannot mention any of the three field names. */
  lemma NoFieldName(msg: string)
    requires '_' !in msg
    ensures !Contains(Lower(msg), "trigger_words")
    ensures !Contains(Lower(msg), "must_cover")
    ensures !Contains(Lower(msg), "must_not_cover")
  {
    LowerKeepsAbsence(msg, '_');
    AbsentChar(Lower(msg), "trigger_words", 7);
    AbsentChar(Lower(msg), "must_cover", 4);
    AbsentChar(Lower(msg), "must_not_cover", 4);
  }

  /** A lower-case letter missing from msg in both cases keeps every pattern holding it out of Lower(msg). */
  lemma LowerLacks(msg: string, c: char, p: string, k: nat)
    requires 'a' <= c <= 'z' && c !in msg && (c as int - 32) as char !in msg
    requires k < |p| && p[k] == c
    ensures !Contains(Lower(msg), p)
  {
    LowerKeepsAbsence(msg, c);
    AbsentChar(Lower(msg), p, k);
  }

  lemma DigitsLack(n: nat, c: char)
    requires !('0' <= c <= '9')
    ensures c !in NatToString(n)
  {
  }

  lemma RouteNowhere(error: string)
    requires '_' !in error && !Contains(Lower(error), "goal")
    ensures Route(error) == NoField
  {
    NoFieldName(error);
  }

  lemma RouteGoal()
    ensures Route(GoalMessage) == GoalField
  {
    assert '_' !in "Goal must be ";
    assert '_' !in "at least 10 characters";
    NoFieldName(GoalMessage);
    var e := Lower(GoalMessage);
    assert e[0] == 'g' && e[1] == 'o' && e[2] == 'a' && e[3] == 'l';
    assert e[0..4] == "goal";
    assert OccursAt(e, "goal", 0);
  }

  lemma TriggerPrefixFree()
    ensures '_' !in TriggerPrefix && 'o' !in TriggerPrefix && 'O' !in TriggerPrefix
  {
    assert '_' !in "Need 5+ " && 'o' !in "Need 5+ " && 'O' !in "Need 5+ ";
    assert '_' !in "trigger phrases, " && 'o' !in "trigger phrases, " && 'O' !in "trigger phrases, ";
    assert '_' !in "have " && 'o' !in "have " && 'O' !in "have ";
  }

  lemma RouteTrigger(n: nat)
    ensures Route(TriggerPrefix + NatToString(n)) == NoField
  {
    var d := NatToString(n);
    TriggerPrefixFree();
    DigitsLack(n, '_');
    DigitsLack(n, 'o');
    DigitsLack(n, 'O');
    LowerLacks(TriggerPrefix + d, 'o', "goal", 1);
    RouteNowhere(TriggerPrefix + d);
  }

  lemma OutputMessageFree()
    ensures '_' !in OutputMessage && 'g' !in OutputMessage && 'G' !in OutputMessage
  {
    assert '_' !in "Output format " && 'g' !in "Output format " && 'G' !in "Output format ";
    assert '_' !in "must be specified" && 'g' !in "must be specified" && 'G' !in "must be specified";
  }

  lemma RouteOutput()
    ensures Route(OutputMessage) == NoField
  {
    OutputMessageFree();
    LowerLacks(OutputMessage, 'g', "goal", 0);
    RouteNowhere(OutputMessage);
  }

  lemma CriteriaMessageFree()
    ensures '_' !in CriteriaMessage && 'g' !in CriteriaMessage && 'G' !in CriteriaMessage
  {
    assert '_' !in "Need at least 1 " && 'g' !in "Need at least 1 " && 'G' !in "Need at least 1 ";
    assert '_' !in "success criterion" && 'g' !in "success criterion" && 'G' !in "success criterion";
  }

  lemma RouteCriteria()
    ensures Route(CriteriaMessage) == NoField
  {
    CriteriaMessageFree();
    LowerLacks(CriteriaMessage, 'g', "goal", 0);
    RouteNowhere(CriteriaMessage);
  }

  /** The lower-cased count message is the lower-case literal, the field name and the digits. */
  lemma LowerCountMessage(name: string, n: nat)
    requires forall i | 0 <= i < |name| :: !IsUpper(name[i])
    ensures Lower("Need 3+ " + name + " items, have " + NatToString(n)) ==
      "need 3+ " + name + " items, have " + NatToString(n)
  {
    var d := NatToString(n);
    LowerAppend("Need 3+ " + name + " items, have ", d);
    LowerAppend("Need 3+ " + name, " items, have ");
    LowerAppend("Need 3+ ", name);
    assert Lower("Need 3+ ") == "need 3+ ";
    LowerFixed(name);
    LowerFixed(" items, have ");
    LowerFixed(d);
  }

  /** The count messages never mention trigger_words: they hold no 'w'. */
  lemma CountMessageNoTrigger(name: string, n: nat)
    requires 'w' !in name && 'W' !in name
    ensures !Contains(Lower("Need 3+ " + name + " items, have " + NatToString(n)), "trigger_words")
  {
    assert 'w' !in "Need 3+ " && 'W' !in "Need 3+ ";
    assert 'w' !in " items, have " && 'W' !in " items, have ";
    DigitsLack(n, 'w');
    DigitsLack(n, 'W');
    LowerLacks("Need 3+ " + name + " items, have " + NatToString(n), 'w', "trigger_words", 8);
  }

  lemma InfixOf(a: string, b: string, c: string, d: string)
    ensures Contains(a + b + c + d, b)
  {
    OccursInfix(a, b, c + d);
    assert a + b + (c + d) == a + b + c + d;
  }

  /** A pattern without spaces occurs in none of three space-separated texts, so not in their join. */
  lemma SpaceSeparated(a: string, b: string, c: string, p: string)
    requires ' ' !in p && !Contains(a, p) && !Contains(b, p) && !Contains(c, p)
    ensures !Contains(a + " " + b + " " + c, p)
  {
    assert a + " " + b + " " + c == a + [' '] + (b + [' '] + c);
    ContainsSeparated(b, ' ', c, p);
    ContainsSeparated(a, ' ', b + [' '] + c, p);
  }

  lemma RouteMustCover(n: nat)
    ensures Route(MustCoverPrefix + NatToString(n)) == MustCoverField
  {
    var d := NatToString(n);
    assert MustCoverPrefix + d == "Need 3+ " + "must_cover" + " items, have " + d;
    LowerCountMessage("must_cover", n);
    CountMessageNoTrigger("must_cover", n);
    InfixOf("need 3+ ", "must_cover", " items, have ", d);
  }

  /** "must_not_cover" does not contain "must_cover". */
  lemma NotCoverName()
    ensures !Contains("must_not_cover", "must_cover")
  {
    var s := "must_not_cover";
    var p := "must_cover";
    forall i | 0 <= i <= |s|
      ensures !OccursAt(s, p, i)
    {
      if i + |p| <= |s| {
        assert s[i..i + |p|][0] == s[i] && s[i..i + |p|][5] == s[i + 5];
        assert i == 0 || s[i] != 'm';
        assert s[5] != p[5];
      }
    }
  }

  /** The lowered must_not_cover message does not contain "must_cover". */
  lemma NotCoverMessage(d: string)
    requires 'u' !in d
    ensures !Contains("need 3+ " + "must_not_cover" + " items, have " + d, "must_cover")
  {
    var tail := "items, have " + d;
    assert "need 3+ " + "must_not_cover" + " items, have " + d == "need 3+" + " " + "must_not_cover" + " " + tail;
    ShortAbsent("need 3+", "must_cover");
    NotCoverName();
    assert 'u' !in "items, have ";
    AbsentChar(tail, "must_cover", 1);
    SpaceSeparated("need 3+", "must_not_cover", tail, "must_cover");
  }

  lemma RouteMustNotCover(n: nat)
    ensures Route(MustNotCoverPrefix + NatToString(n)) == MustNotCoverField
  {
    var d := NatToString(n);
    assert MustNotCoverPrefix + d == "Need 3+ " + "must_not_cover" + " items, have " + d;
    LowerCountMessage("must_not_cover", n);
    CountMessageNoTrigger("must_not_cover", n);
    DigitsLack(n, 'u');
    NotCoverMessage(d);
    InfixOf("need 3+ ", "must_not_cover", " items, have ", d);
  }

  /** Of the six messages, only those of the goal, must_cover and must_not_cover rules are re-prompted. */
  lemma RouteOfMessage(rule: ScopeRule, card: ScopeCard)
    ensures Route(BuilderMessage(rule, card)) == Prompted(rule)
  {
    match rule
    case GoalLength => RouteGoal();
    case TriggerCount => RouteTrigger(|card.triggerWords|);
    case MustCoverCount => RouteMustCover(|card.mustCover|);
    case MustNotCoverCount => RouteMustNotCover(|card.mustNotCover|);
    case OutputFormGiven => RouteOutput();
    case CriteriaGiven => RouteCriteria();
  }

  // ---------------------------------------------------------------- the fix-up pass

  /** The card being repaired and the index of the next answer to read. */
  datatype Fixing = Fixing(card: ScopeCard, next: nat)

  /** One pass of the _fix_errors loop: a routed message reads one answer into its field, uncapped. */
  function FixOne(card: ScopeCard, error: string, input: nat -> string, at: nat): Fixing
  {
    match Route(error)
    case TriggerField => Fixing(card.(triggerWords := CommaItems(input(at))), at + 1)
    case MustCoverField => Fixing(card.(mustCover := CommaItems(input(at))), at + 1)
    case MustNotCoverField => Fixing(card.(mustNotCover := CommaItems(input(at))), at + 1)
    case GoalField => Fixing(card.(goal := Strip(input(at))), at + 1)
    case NoField => Fixing(card, at)
  }

  function FixAll(card: ScopeCard, errors: seq<string>, input: nat -> string, at: nat): Fixing
    decreases |errors|
  {
    if errors == [] then Fixing(card, at)
    else
      var f := FixOne(card, errors[0], input, at);
      FixAll(f.card, errors[1..], input, f.next)
  }

  lemma {:induction false} FixAllAppend(card: ScopeCard, a: seq<string>, b: seq<string>, input: nat -> string, at: nat)
    ensures FixAll(card, a + b, input, at) ==
      FixAll(FixAll(card, a, input, at).card, b, input, FixAll(card, a, input, at).next)
    decreases |a|
  {
    if a == [] {
      assert a + b == b;
    } else {
      assert (a + b)[0] == a[0];
      assert (a + b)[1..] == a[1..] + b;
      var f := FixOne(card, a[0], input, at);
      FixAllAppend(f.card, a[1..], b, input, f.next);
    }
  }

  /** The repair of one rule's messages: nothing when the rule holds, else the routed prompt. */
  lemma FixPiece(c: ScopeCard, rule: ScopeRule, card: ScopeCard, input: nat -> string, at: nat)
    ensures FixAll(c, Report(rule, card), input, at) ==
      if Holds(rule, card) then Fixing(c, at) else FixOne(c, BuilderMessage(rule, card), input, at)
  {
    if !Holds(rule, card) {
      var f := FixOne(c, BuilderMessage(rule, card), input, at);
      assert FixAll(c, [BuilderMessage(rule, card)], input, at) == FixAll(f.card, [], input, f.next);
    }
  }

  /**
   * What the fix-up pass does with the errors of _validate, stated without the routing:
   * the goal, must_cover and must_not_cover answers are read, in that order, for the
   * rules the card breaks, into lists that are not capped; every other field is kept.
   */
  function Reprompted(card: ScopeCard, input: nat -> string, at: nat): Fixing
  {
    var g := if Holds(GoalLength, card) then 0 else 1;
    var c := if Holds(MustCoverCount, card) then 0 else 1;
    var n := if Holds(MustNotCoverCount, card) then 0 else 1;
    Fixing(
      card.(
        goal := if g == 1 then Strip(input(at)) else card.goal,
        mustCover := if c == 1 then CommaItems(input(at + g)) else card.mustCover,
        mustNotCover := if n == 1 then CommaItems(input(at + g + c)) else card.mustNotCover),
      at + g + c + n)
  }

  lemma FixGoal(c: ScopeCard, card: ScopeCard, input: nat -> string, at: nat)
    ensures FixAll(c, Report(GoalLength, card), input, at) ==
      if Holds(GoalLength, card) then Fixing(c, at) else Fixing(c.(goal := Strip(input(at))), at + 1)
  {
    FixPiece(c, GoalLength, card, input, at);
    RouteOfMessage(GoalLength, card);
  }

  lemma FixMustCover(c: ScopeCard, card: ScopeCard, input: nat -> string, at: nat)
    ensures FixAll(c, Report(MustCoverCount, card), input, at) ==
      if Holds(MustCoverCount, card) then Fixing(c, at)
      else Fixing(c.(mustCover := CommaItems(input(at))), at + 1)
  {
    FixPiece(c, MustCoverCount, card, input, at);
    RouteOfMessage(MustCoverCount, card);
  }

  lemma FixMustNotCover(c: ScopeCard, card: ScopeCard, input: nat -> string, at: nat)
    ensures FixAll(c, Report(MustNotCoverCount, card), input, at) ==
      if Holds(MustNotCoverCount, card) then Fixing(c, at)
      else Fixing(c.(mustNotCover := CommaItems(input(at))), at + 1)
  {
    FixPiece(c, MustNotCoverCount, card, input, at);
    RouteOfMessage(MustNotCoverCount, card);
  }

  /** The trigger, output-form and criteria messages are skipped. */
  lemma FixSkipped(c: ScopeCard, rule: ScopeRule, card: ScopeCard, input: nat -> string, at: nat)
    requires rule == TriggerCount || rule == OutputFormGiven || rule == CriteriaGiven
    ensures FixAll(c, Report(rule, card), input, at) == Fixing(c, at)
  {
    FixPiece(c, rule, card, input, at);
    RouteOfMessage(rule, card);
  }

  /** The fix-up pass over six message lists runs them one after the other. */
  lemma FixSix(card: ScopeCard, m0: seq<string>, m1: seq<string>, m2: seq<string>, m3: seq<string>,
               m4: seq<string>, m5: seq<string>, input: nat -> string, at: nat,
               f0: Fixing, f1: Fixing, f2: Fixing, f3: Fixing, f4: Fixing, f5: Fixing)
    requires FixAll(card, m0, input, at) == f0
    requires FixAll(f0.card, m1, input, f0.next) == f1
    requires FixAll(f1.card, m2, input, f1.next) == f2
    requires FixAll(f2.card, m3, input, f2.next) == f3
    requires FixAll(f3.card, m4, input, f3.next) == f4
    requires FixAll(f4.card, m5, input, f4.next) == f5
    ensures FixAll(card, m0 + m1 + m2 + m3 + m4 + m5, input, at) == f5
  {
    FixAllAppend(card, m0, m1, input, at);
    FixAllAppend(card, m0 + m1, m2, input, at);
    FixAllAppend(card, m0 + m1 + m2, m3, input, at);
    FixAllAppend(card, m0 + m1 + m2 + m3, m4, input, at);
    FixAllAppend(card, m0 + m1 + m2 + m3 + m4, m5, input, at);
  }

  /** The goal, trigger and must-cover messages: the first two answers the pass reads. */
  lemma FixFront(card: ScopeCard, input: nat -> string, at: nat, f0: Fixing, f2: Fixing)
    requires f0 == if Holds(GoalLength, card) then Fixing(card, at)
                   else Fixing(card.(goal := Strip(input(at))), at + 1)
    requires f2 == if Holds(MustCoverCount, card) then f0
                   else Fixing(f0.card.(mustCover := CommaItems(input(f0.next))), f0.next + 1)
    ensures FixAll(card, Report(GoalLength, card), input, at) == f0
    ensures FixAll(f0.card, Report(TriggerCount, card), input, f0.next) == f0
    ensures FixAll(f0.card, Report(MustCoverCount, card), input, f0.next) == f2
  {
    FixGoal(card, card, input, at);
    FixSkipped(f0.card, TriggerCount, card, input, f0.next);
    FixMustCover(f0.card, card, input, f0.next);
  }

  /** The must-not-cover, output-form and criteria messages: at most one more answer. */
  lemma FixBack(card: ScopeCard, input: nat -> string, f2: Fixing, f3: Fixing)
    requires f3 == if Holds(MustNotCoverCount, card) then f2
                   else Fixing(f2.card.(mustNotCover := CommaItems(input(f2.next))), f2.next + 1)
    ensures FixAll(f2.card, Report(MustNotCoverCount, card), input, f2.next) == f3
    ensures FixAll(f3.card, Report(OutputFormGiven, card), input, f3.next) == f3
    ensures FixAll(f3.card, Report(CriteriaGiven, card), input, f3.next) == f3
  {
    FixMustNotCover(f2.card, card, input, f2.next);
    FixSkipped(f3.card, OutputFormGiven, card, input, f3.next);
    FixSkipped(f3.card, CriteriaGiven, card, input, f3.next);
  }

  lemma FixValidateErrors(card: ScopeCard, input: nat -> string, at: nat)
    ensures FixAll(card, BuilderErrors(card), input, at) == Reprompted(card, input, at)
  {
    var f0 := if Holds(GoalLength, card) then Fixing(card, at)
              else Fixing(card.(goal := Strip(input(at))), at + 1);
    var f2 := if Holds(MustCoverCount, card) then f0
              else Fixing(f0.card.(mustCover := CommaItems(input(f0.next))), f0.next + 1);
    var f3 := if Holds(MustNotCoverCount, card) then f2
              else Fixing(f2.card.(mustNotCover := CommaItems(input(f2.next))), f2.next + 1);
    FixFront(card, input, at, f0, f2);
    FixBack(card, input, f2, f3);
    FixSix(card, Report(GoalLength, card), Report(TriggerCount, card), Report(MustCoverCount, card),
           Report(MustNotCoverCount, card), Report(OutputFormGiven, card), Report(CriteriaGiven, card),
           input, at, f0, f0, f2, f3, f3, f3);
    RepromptedSteps(card, input, at);
  }

  lemma RepromptedSteps(card: ScopeCard, input: nat -> string, at: nat)
    ensures Reprompted(card, input, at) ==
      var f0 := if Holds(GoalLength, card) then Fixing(card, at)
                else Fixing(card.(goal := Strip(input(at))), at + 1);
      var f2 := if Holds(MustCoverCount, card) then f0
                else Fixing(f0.card.(mustCover := CommaItems(input(f0.next))), f0.next + 1);
      if Holds(MustNotCoverCount, card) then f2
      else Fixing(f2.card.(mustNotCover := CommaItems(input(f2.next))), f2.next + 1)
  {
  }

  // ---------------------------------------------------------------- the two build modes

  /** TEMPLATE: no goal, empty lists, no output form. */
  const EmptyCard: ScopeCard := ScopeCard("", [], [], [], "", [])

  /** _build_from_request: the request becomes the goal and the first of five trigger phrases. */
  function RequestCard(request: string): (card: ScopeCard)
  {
    ScopeCard(
      request,
      [request, "make a skill for " + request, "create a " + request,
       "turn " + request + " into a skill", "automate " + request],
      ["default scenario 1", "default scenario 2", "default scenario 3"],
      ["out of scope 1", "out of scope 2", "out of scope 3"],
      "template",
      ["achieves stated goal"])
  }

  /** A card built from the request alone can only break the goal rule. */
  lemma RequestCardErrors(request: string)
    ensures BuilderErrors(RequestCard(request)) == if |Strip(request)| >= 10 then [] else [GoalMessage]
  {
  }

  /** The card after the six interactive answers, before any repair. */
  function Answered(request: string, input: nat -> string, at: nat): (card: ScopeCard)
  {
    var goal := Strip(input(at));
    var form := Strip(input(at + 4));
    ScopeCard(
      if goal == [] then request else goal,
      Take(CommaItems(input(at + 1)), 10),
      Take(CommaItems(input(at + 2)), 10),
      Take(CommaItems(input(at + 3)), 10),
      if form == [] then "template" else form,
      CommaItems(input(at + 5)))
  }

  /**
   * The interactive answers: a blank goal falls back to the request and a blank output
   * form to "template"; the three scope lists keep at most 10 items, the criteria all.
   */
  lemma AnsweredShape(request: string, input: nat -> string, at: nat)
    ensures var card := Answered(request, input, at);
      (Strip(input(at)) == [] ==> card.goal == request) &&
      (Strip(input(at)) != [] ==> card.goal == Strip(input(at))) &&
      (Strip(input(at + 4)) == [] ==> card.outputForm == "template") &&
      card.outputForm != "" && Holds(OutputFormGiven, card) &&
      |card.triggerWords| == Min(10, |CommaItems(input(at + 1))|) &&
      |card.mustCover| == Min(10, |CommaItems(input(at + 2))|) &&
      |card.mustNotCover| == Min(10, |CommaItems(input(at + 3))|) &&
      card.successCriteria == CommaItems(input(at + 5))
  {
  }

  /** The card an interactive build ends with: the answered card, repaired once if invalid. */
  function InteractiveCard(request: string, input: nat -> string, at: nat): ScopeCard
  {
    var card := Answered(request, input, at);
    if BuilderErrors(card) == [] then card else Reprompted(card, input, at + 6).card
  }

  /** The index of the first answer the interactive build leaves unread. */
  function InteractiveNext(request: string, input: nat -> string, at: nat): nat
  {
    var card := Answered(request, input, at);
    if BuilderErrors(card) == [] then at + 6 else Reprompted(card, input, at + 6).next
  }

  /**
   * The builder returns a repaired card even when it is still invalid: with blank answers
   * throughout, the trigger list stays empty.
   */
  lemma BlankAnswersStayInvalid(request: string, at: nat)
    ensures !Complete(InteractiveCard(request, _ => "", at))
  {
    CommaItemsBlank("");
    var card := Answered(request, _ => "", at);
    assert card.triggerWords == [];
  }

  class ScopeCardBuilder {
    var card: ScopeCard

    constructor ()
      ensures card == EmptyCard
    {
      card := EmptyCard;
    }

    /** _validate. */
    method Validate() returns (valid: bool, errors: seq<string>)
      ensures errors == BuilderErrors(card)
      ensures valid <==> errors == []
      ensures valid <==> Complete(card)
    {
      errors := [];
      if |Strip(card.goal)| < 10 {
        errors := errors + [GoalMessage];
      }
      assert errors == Report(GoalLength, card);
      if |card.triggerWords| < 5 {
        errors := errors + [TriggerPrefix + NatToString(|card.triggerWords|)];
      }
      assert errors == Report(GoalLength, card) + Report(TriggerCount, card);
      if |card.mustCover| < 3 {
        errors := errors + [MustCoverPrefix + NatToString(|card.mustCover|)];
      }
      assert errors == Report(GoalLength, card) + Report(TriggerCount, card) + Report(MustCoverCount, card);
      if |card.mustNotCover| < 3 {
        errors := errors + [MustNotCoverPrefix + NatToString(|card.mustNotCover|)];
      }
      ghost var upToMustNot := errors;
      assert upToMustNot == Report(GoalLength, card) + Report(TriggerCount, card) +
        Report(MustCoverCount, card) + Report(MustNotCoverCount, card);
      if card.outputForm == "" {
        errors := errors + [OutputMessage];
      }
      assert errors == upToMustNot + Report(OutputFormGiven, card);
      if |card.successCriteria| < 1 {
        errors := errors + [CriteriaMessage];
      }
      assert errors == upToMustNot + Report(OutputFormGiven, card) + Report(CriteriaGiven, card);
      valid := |errors| == 0;
    }

    /** _build_from_request. */
    method BuildFromRequest(request: string)
      modifies this
      ensures card == RequestCard(request)
    {
      card := card.(goal := request);
      card := card.(triggerWords := [request, "make a skill for " + request, "create a " + request,
                                     "turn " + request + " into a skill", "automate " + request]);
      card := card.(mustCover := ["default scenario 1", "default scenario 2", "default scenario 3"]);
      card := card.(mustNotCover := ["out of scope 1", "out of scope 2", "out of scope 3"]);
      card := card.(outputForm := "template");
      card := card.(successCriteria := ["achieves stated goal"]);
    }

    /** _fix_errors: one answer per routed message, then a re-validation whose verdict is only reported. */
    method FixErrors(errors: seq<string>, input: nat -> string, at: nat) returns (next: nat)
      modifies this
      ensures Fixing(card, next) == FixAll(old(card), errors, input, at)
    {
      var i := 0;
      next := at;
      while i < |errors|
        invariant 0 <= i <= |errors|
        invariant FixAll(card, errors[i..], input, next) == FixAll(old(card), errors, input, at)
      {
        assert errors[i..][0] == errors[i] && errors[i..][1..] == errors[i + 1..];
        var field := Route(errors[i]);
        if field == TriggerField {
          card := card.(triggerWords := CommaItems(input(next)));
          next := next + 1;
        } else if field == MustCoverField {
          card := card.(mustCover := CommaItems(input(next)));
          next := next + 1;
        } else if field == MustNotCoverField {
          card := card.(mustNotCover := CommaItems(input(next)));
          next := next + 1;
        } else if field == GoalField {
          card := card.(goal := Strip(input(next)));
          next := next + 1;
        }
        i := i + 1;
      }
      var stillValid, remaining := Validate();
    }

    /** _build_interactive: six answers, then one repair pass when the card is invalid. */
    method BuildInteractive(request: string, input: nat -> string, at: nat) returns (next: nat)
      modifies this
      ensures card == InteractiveCard(request, input, at)
      ensures next == InteractiveNext(request, input, at)
    {
      var goal := Strip(input(at));
      if goal == [] {
        goal := request;
      }
      card := card.(goal := goal);
      card := card.(triggerWords := Take(CommaItems(input(at + 1)), 10));
      card := card.(mustCover := Take(CommaItems(input(at + 2)), 10));
      card := card.(mustNotCover := Take(CommaItems(input(at + 3)), 10));
      var form := Strip(input(at + 4));
      card := card.(outputForm := if form == [] then "template" else form);
      card := card.(successCriteria := CommaItems(input(at + 5)));
      assert card == Answered(request, input, at);
      var valid, errors := Validate();
      next := at + 6;
      if !valid {
        FixValidateErrors(card, input, at + 6);
        next := FixErrors(errors, input, at + 6);
      }
    }

    /** build: interactive or from the request alone. */
    method Build(request: string, interactive: bool, input: nat -> string, at: nat) returns (next: nat)
      modifies this
      ensures interactive ==> card == InteractiveCard(request, input, at) && next == InteractiveNext(request, input, at)
      ensures !interactive ==> card == RequestCard(request) && next == at
    {
      if interactive {
        next := BuildInteractive(request, input, at);
      } else {
        BuildFromRequest(request);
        next := at;
      }
    }
  }
}
