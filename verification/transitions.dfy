/** Properties of the stage transition engine that relate several steps:
    idempotent selection, the routing of free-text answers, the case rules
    of the control words, and what the "other" pain point does to
    duplicates. */
module Transitions {
  import opened Wrappers
  import opened Text
  import opened Interview
  import opened Engine

  predicate NoDuplicates(xs: seq<string>) {
    forall i, j :: 0 <= i < j < |xs| ==> xs[i] != xs[j]
  }

  /** Choosing the same pain point a second time changes nothing. */
  lemma PainPointSelectionIdempotent(rec: Record, draft: Option<Pain>, input: string, now: string)
    requires !IsPainPointsControl(Strip(input))
    ensures var o := Step(PainPoints, rec, draft, input, now);
            Step(PainPoints, o.rec, o.draft, input, now) == o
  {
  }

  /** A step in the pain-point stage never introduces a duplicate. */
  lemma PainPointsStepKeepsDistinct(rec: Record, draft: Option<Pain>, input: string, now: string)
    requires NoDuplicates(rec.painPoints)
    ensures NoDuplicates(Step(PainPoints, rec, draft, input, now).rec.painPoints)
  {
    var text := Strip(input);
    var o := OnPainPoints(rec, draft, text);
    if !IsPainPointsControl(text) && text !in rec.painPoints {
      assert o.rec.painPoints == rec.painPoints + [text];
    }
  }

  /** The texts of a run of selections, stripped as the handler strips them. */
  function Choices(msgs: seq<Msg>): set<string> {
    set i | 0 <= i < |msgs| :: Strip(msgs[i].text)
  }

  lemma ChoicesCons(m: Msg, rest: seq<Msg>)
    ensures Choices([m] + rest) == {Strip(m.text)} + Choices(rest)
  {
    var msgs := [m] + rest;
    assert msgs[0] == m;
    forall y | y in Choices(msgs) ensures y in {Strip(m.text)} + Choices(rest) {
      var i :| 0 <= i < |msgs| && y == Strip(msgs[i].text);
      if i > 0 {
        assert msgs[i] == rest[i - 1];
      }
    }
    forall y | y in Choices(rest) ensures y in Choices(msgs) {
      var i :| 0 <= i < |rest| && y == Strip(rest[i].text);
      assert msgs[i + 1] == rest[i];
    }
  }

  /** One selection adds its stripped text to the set of pain points. */
  lemma SelectionAddsChoice(rec: Record, draft: Option<Pain>, m: Msg)
    requires NoDuplicates(rec.painPoints)
    requires !IsPainPointsControl(Strip(m.text))
    ensures var o := Step(PainPoints, rec, draft, m.text, m.now);
            && o == Next(PainPoints, rec.(painPoints := o.rec.painPoints), draft)
            && NoDuplicates(o.rec.painPoints)
            && rec.painPoints <= o.rec.painPoints
            && (set x | x in o.rec.painPoints) == (set x | x in rec.painPoints) + {Strip(m.text)}
  {
    var text := Strip(m.text);
    assert Step(PainPoints, rec, draft, m.text, m.now) == OnPainPoints(rec, draft, Strip(m.text));
    PainPointsStepKeepsDistinct(rec, draft, m.text, m.now);
  }

  /** Whatever the order and however often the options are chosen, the
      pain points end up holding the earlier ones followed by each newly
      chosen option exactly once. */
  lemma {:induction false} SelectionsRecordedOnce(rec: Record, draft: Option<Pain>, msgs: seq<Msg>)
    requires NoDuplicates(rec.painPoints)
    requires forall i :: 0 <= i < |msgs| ==> !IsPainPointsControl(Strip(msgs[i].text))
    ensures var o := Run(Next(PainPoints, rec, draft), msgs);
            && o.Next? && o.stage == PainPoints && o.draft == draft
            && o.rec == rec.(painPoints := o.rec.painPoints)
            && NoDuplicates(o.rec.painPoints)
            && rec.painPoints <= o.rec.painPoints
            && (set x | x in o.rec.painPoints) == (set x | x in rec.painPoints) + Choices(msgs)
    decreases |msgs|
  {
    if msgs == [] {
      assert Choices(msgs) == {};
    } else {
      var m := msgs[0];
      var rest := msgs[1..];
      assert msgs == [m] + rest;
      SelectionAddsChoice(rec, draft, m);
      var o1 := Step(PainPoints, rec, draft, m.text, m.now);
      RunCons(Next(PainPoints, rec, draft), m, rest);
      assert forall i :: 0 <= i < |rest| ==> rest[i] == msgs[i + 1];
      SelectionsRecordedOnce(o1.rec, draft, rest);
      ChoicesCons(m, rest);
    }
  }

  lemma StepAtPainPoints(rec: Record, draft: Option<Pain>, input: string, now: string)
    requires Trimmed(input)
    ensures Step(PainPoints, rec, draft, input, now) == OnPainPoints(rec, draft, input)
  {
    StepOfTrimmed(PainPoints, rec, draft, input, now);
  }

  lemma StepAtPainPointsOther(rec: Record, draft: Option<Pain>, input: string, now: string)
    requires Trimmed(input)
    ensures Step(PainPointsOther, rec, draft, input, now) == OnPainPointsOther(rec, draft, input)
  {
    StepOfTrimmed(PainPointsOther, rec, draft, input, now);
  }

  lemma StepAtPainName(rec: Record, draft: Option<Pain>, input: string, now: string)
    requires Trimmed(input)
    ensures Step(PainName, rec, draft, input, now) == OnPainName(rec, draft, input)
  {
    StepOfTrimmed(PainName, rec, draft, input, now);
  }

  lemma OtherRouteFirstStep(rec: Record, draft: Option<Pain>)
    requires rec.painPoints == []
    ensures Step(PainPoints, rec, draft, "Другое: x", "")
              == Next(PainPoints, rec.(painPoints := ["Другое: x"]), draft)
  {
    StepAtPainPoints(rec, draft, "Другое: x", "");
  }

  lemma OtherRouteSecondStep(rec: Record, draft: Option<Pain>)
    ensures Step(PainPoints, rec, draft, OtherToken, "") == Next(PainPointsOther, rec, draft)
  {
    StepAtPainPoints(rec, draft, OtherToken, "");
  }

  lemma OtherRouteThirdHandler(rec: Record, draft: Option<Pain>)
    requires rec.painPoints == ["Другое: x"]
    ensures OnPainPointsOther(rec, draft, "x")
              == Next(PainPoints, rec.(painPoints := ["Другое: x", "Другое: x"]), draft)
  {
    assert "x" != "Другое: x";
    assert "x" !in rec.painPoints;
    assert OtherPrefix + "x" == "Другое: x";
    assert rec.painPoints + [OtherPrefix + "x"] == ["Другое: x", "Другое: x"];
  }

  lemma OtherRouteThirdStep(rec: Record, draft: Option<Pain>)
    requires rec.painPoints == ["Другое: x"]
    ensures Step(PainPointsOther, rec, draft, "x", "")
              == Next(PainPoints, rec.(painPoints := ["Другое: x", "Другое: x"]), draft)
  {
    StepAtPainPointsOther(rec, draft, "x", "");
    OtherRouteThirdHandler(rec, draft);
  }

  /** The "other" route can store the same text twice: a pain point typed
      as "Другое: x", then "Другое" and "x", leaves "Другое: x" in the list
      twice, because the handler looks up "x" but appends "Другое: x". */
  lemma OtherRouteCanDuplicate(rec: Record, draft: Option<Pain>)
    requires rec.painPoints == []
    ensures var o := Run(Next(PainPoints, rec, draft),
                         [Msg("Другое: x", ""), Msg(OtherToken, ""), Msg("x", "")]);
            && o == Next(PainPoints, rec.(painPoints := ["Другое: x", "Другое: x"]), draft)
            && !NoDuplicates(o.rec.painPoints)
  {
    var m1, m2, m3 := Msg("Другое: x", ""), Msg(OtherToken, ""), Msg("x", "");
    assert [m1, m2, m3] == [m1] + ([m2] + ([m3] + []));
    var r1 := rec.(painPoints := ["Другое: x"]);
    var r3 := rec.(painPoints := ["Другое: x", "Другое: x"]);
    OtherRouteFirstStep(rec, draft);
    OtherRouteSecondStep(r1, draft);
    OtherRouteThirdStep(r1, draft);
    RunCons(Next(PainPoints, rec, draft), m1, [m2] + ([m3] + []));
    RunCons(Next(PainPoints, r1, draft), m2, [m3] + []);
    RunCons(Next(PainPointsOther, r1, draft), m3, []);
    var o := Run(Next(PainPoints, rec, draft), [m1, m2, m3]);
    assert o == Next(PainPoints, r3, draft);
    assert o.rec.painPoints[0] == o.rec.painPoints[1];
  }

  /** Conversely a typed "other" text is dropped when the bare text is
      already a pain point, although its marked form is not. */
  lemma OtherRouteDropsBareMatch(rec: Record, draft: Option<Pain>, input: string, now: string)
    requires Strip(input) in rec.painPoints
    ensures Step(PainPointsOther, rec, draft, input, now) == Next(PainPoints, rec, draft)
  {
  }

  /** The advance words of the name question ignore case: an answer and its
      lower-cased form route alike. */
  lemma AdvanceIgnoresCase(text: string)
    ensures IsAdvance(text) <==> IsAdvance(Lower(text))
  {
    LowerIdempotent(text);
  }

  lemma LowerCaseButtonStored(rec: Record, draft: Option<Pain>, now: string)
    requires rec.painPoints == []
    ensures Step(PainPoints, rec, draft, "продолжить", now)
              == Next(PainPoints, rec.(painPoints := ["продолжить"]), draft)
  {
    StepAtPainPoints(rec, draft, "продолжить", now);
  }

  lemma ContinueButtonMovesOn(rec: Record, draft: Option<Pain>, now: string)
    ensures Step(PainPoints, rec, draft, "Продолжить", now) == Next(RegularProblems, rec, draft)
  {
    StepAtPainPoints(rec, draft, "Продолжить", now);
  }

  /** The pain-point buttons, unlike the advance words, are case-sensitive:
      "продолжить" is stored as a pain point, "Продолжить" moves on. */
  lemma PainPointButtonsCaseSensitive(rec: Record, draft: Option<Pain>, now: string)
    requires rec.painPoints == []
    ensures Step(PainPoints, rec, draft, "продолжить", now)
              == Next(PainPoints, rec.(painPoints := ["продолжить"]), draft)
    ensures Step(PainPoints, rec, draft, "Продолжить", now) == Next(RegularProblems, rec, draft)
  {
    LowerCaseButtonStored(rec, draft, now);
    ContinueButtonMovesOn(rec, draft, now);
  }

  lemma ContinueTailHasNoCapitals()
    ensures NoCapitals("родолжить")
  {
  }

  lemma ContinueSpelling()
    ensures "Продолжить" == ['П'] + "родолжить"
    ensures ['п'] + "родолжить" == "продолжить"
    ensures LowerChar('П') == 'п'
  {
  }

  lemma ContinueLowered()
    ensures Lower("Продолжить") == "продолжить"
  {
    ContinueTailHasNoCapitals();
    ContinueSpelling();
    LowerCapitalised('П', "родолжить");
  }

  lemma CapitalisedContinueAdvances()
    ensures IsAdvance("Продолжить")
  {
    ContinueLowered();
    assert AdvanceTokens[1] == "продолжить";
  }

  /** At the name question "Продолжить" and "NEXT" leave the loop. */
  lemma CapitalisedAdvance(rec: Record, draft: Option<Pain>, now: string)
    ensures Step(PainName, rec, draft, "Продолжить", now).stage == MagicWand
  {
    StepAtPainName(rec, draft, "Продолжить", now);
    CapitalisedContinueAdvances();
  }

  lemma UpperCaseNextAdvances()
    ensures IsAdvance("NEXT")
  {
    assert Lower("NEXT") == "next";
    assert AdvanceTokens[2] == "next";
  }

  lemma UpperCaseAdvance(rec: Record, draft: Option<Pain>, now: string)
    ensures Step(PainName, rec, draft, "NEXT", now).stage == MagicWand
  {
    StepAtPainName(rec, draft, "NEXT", now);
    UpperCaseNextAdvances();
  }

  /** A message at the score question that is not a number from 1 to 10
      changes neither the record nor the pain under construction, once the
      emotion is known. */
  lemma InvalidScoreChangesNothing(rec: Record, draft: Option<Pain>, input: string, now: string)
    requires draft.None? || !EmotionMissing(draft.value)
    requires ParseScore(Strip(input)).None?
    ensures Step(PainScore, rec, draft, input, now) == Next(PainScore, rec, draft)
  {
  }

  /** Every button of the score keyboard is accepted with its own value,
      and a number outside 1..10 is refused. */
  lemma ScoreButtonsAccepted(n: int)
    ensures 1 <= n <= 10 ==> ParseScore(IntToString(n)) == Some(n)
    ensures n < 1 || n > 10 ==> ParseScore(IntToString(n)) == None
  {
    ParseIntString(n);
  }

  /** The free-text questions outside the loops: each stores the stripped
      answer in its own field, moves to the next question and leaves the
      rest of the record and the draft alone. */
  lemma FreeTextAnswersStored(rec: Record, draft: Option<Pain>, input: string, now: string)
    ensures var t := Strip(input);
            && Step(RespondentInfo, rec, draft, input, now)
                 == Next(DayMap, rec.(respondentId := Some(t), date := Some(now)), draft)
            && Step(DayMap, rec, draft, input, now) == Next(PainPoints, rec.(dayDescription := t), draft)
            && Step(RegularProblems, rec, draft, input, now) == Next(PainName, rec.(mainPains := t), draft)
            && Step(MagicWand, rec, draft, input, now) == Next(InsightsSurprise, rec.(magicWand := t), draft)
  {
  }

  lemma SurpriseStored(rec: Record, draft: Option<Pain>, input: string, now: string)
    ensures Step(InsightsSurprise, rec, draft, input, now)
              == Next(InsightsNeeds, rec.(insights := rec.insights.(surprise := Strip(input))), draft)
  {
  }

  lemma NeedsStored(rec: Record, draft: Option<Pain>, input: string, now: string)
    ensures Step(InsightsNeeds, rec, draft, input, now)
              == Next(InsightsFood, rec.(insights := rec.insights.(hiddenNeeds := Strip(input))), draft)
  {
  }

  lemma FoodStored(rec: Record, draft: Option<Pain>, input: string, now: string)
    ensures Step(InsightsFood, rec, draft, input, now)
              == Next(InsightsPay, rec.(insights := rec.insights.(foodSignals := Strip(input))), draft)
  {
  }

  /** The four insight questions fill the four insight fields in order; the
      last one finishes the interview. */
  lemma InsightAnswersStored(rec: Record, draft: Option<Pain>, input: string, now: string)
    ensures var t := Strip(input);
            && Step(InsightsSurprise, rec, draft, input, now)
                 == Next(InsightsNeeds, rec.(insights := rec.insights.(surprise := t)), draft)
            && Step(InsightsNeeds, rec, draft, input, now)
                 == Next(InsightsFood, rec.(insights := rec.insights.(hiddenNeeds := t)), draft)
            && Step(InsightsFood, rec, draft, input, now)
                 == Next(InsightsPay, rec.(insights := rec.insights.(foodSignals := t)), draft)
            && Step(InsightsPay, rec, draft, input, now)
                 == Finished(rec.(insights := rec.insights.(willingnessToPay := t)))
  {
    SurpriseStored(rec, draft, input, now);
    NeedsStored(rec, draft, input, now);
    FoodStored(rec, draft, input, now);
  }
}
