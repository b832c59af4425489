/** A complete interview, from the respondent number to the last insight,
    first for arbitrary answers and then for one concrete respondent. */
module Scenario {
  import opened Wrappers
  import opened Text
  import opened Interview
  import opened Engine
  import opened Aggregation

  function Opening(id: string, day: string, point: string, main: string, now: string): seq<Msg> {
    [Msg(id, now)] + ([Msg(day, now)] + ([Msg(point, now)] + ([Msg(ContinueToken, now)] + [Msg(main, now)])))
  }

  function PainLoop(name: string, lastCase: string, reason: string, emotion: string,
                    score: string, advance: string, now: string): seq<Msg> {
    [Msg(name, now)] + ([Msg(lastCase, now)] + ([Msg(reason, now)] + ([Msg(emotion, now)] + ([Msg(score, now)] + [Msg(advance, now)]))))
  }

  function Closing(wand: string, surprise: string, needs: string, food: string, pay: string, now: string): seq<Msg> {
    [Msg(wand, now)] + ([Msg(surprise, now)] + ([Msg(needs, now)] + ([Msg(food, now)] + [Msg(pay, now)])))
  }

  /** Feeding a message whose step is known. */
  lemma RunThrough(o: Outcome, m: Msg, rest: seq<Msg>, o': Outcome)
    requires o.Next? && Step(o.stage, o.rec, o.draft, m.text, m.now) == o'
    ensures Run(o, [m] + rest) == Run(o', rest)
  {
    RunCons(o, m, rest);
  }

  lemma RunOne(o: Outcome, m: Msg, o1: Outcome)
    requires o.Next? && Step(o.stage, o.rec, o.draft, m.text, m.now) == o1
    ensures Run(o, [m]) == o1
  {
    RunThrough(o, m, [], o1);
    assert [m] + [] == [m];
  }

  lemma ContinueTokenTrimmed()
    ensures Trimmed(ContinueToken)
  {
  }

  lemma RespondentStep(rec: Record, draft: Option<Pain>, id: string, now: string)
    requires Trimmed(id)
    ensures Step(RespondentInfo, rec, draft, id, now)
              == Next(DayMap, rec.(respondentId := Some(id), date := Some(now)), draft)
  {
    StepOfTrimmed(RespondentInfo, rec, draft, id, now);
  }

  lemma DayStep(rec: Record, draft: Option<Pain>, day: string, now: string)
    requires Trimmed(day)
    ensures Step(DayMap, rec, draft, day, now) == Next(PainPoints, rec.(dayDescription := day), draft)
  {
    StepOfTrimmed(DayMap, rec, draft, day, now);
  }

  lemma PointStep(rec: Record, draft: Option<Pain>, point: string, now: string)
    requires Trimmed(point) && rec.painPoints == [] && !IsPainPointsControl(point)
    ensures Step(PainPoints, rec, draft, point, now) == Next(PainPoints, rec.(painPoints := [point]), draft)
  {
    StepOfTrimmed(PainPoints, rec, draft, point, now);
  }

  lemma ContinueStep(rec: Record, draft: Option<Pain>, now: string)
    ensures Step(PainPoints, rec, draft, ContinueToken, now) == Next(RegularProblems, rec, draft)
  {
    ContinueTokenTrimmed();
    StepOfTrimmed(PainPoints, rec, draft, ContinueToken, now);
  }

  lemma MainPainsStep(rec: Record, draft: Option<Pain>, main: string, now: string)
    requires Trimmed(main)
    ensures Step(RegularProblems, rec, draft, main, now) == Next(PainName, rec.(mainPains := main), draft)
  {
    StepOfTrimmed(RegularProblems, rec, draft, main, now);
  }

  lemma NameStep(rec: Record, draft: Option<Pain>, name: string, now: string)
    requires Trimmed(name) && !IsAdvance(name) && rec.mostAnnoying == ""
    ensures Step(PainName, rec, draft, name, now)
              == Next(PainCase, rec.(mostAnnoying := name), Some(NewPain(name, 0)))
  {
    StepOfTrimmed(PainName, rec, draft, name, now);
  }

  lemma CaseStep(rec: Record, d: Pain, text: string, now: string)
    requires Trimmed(text)
    ensures Step(PainCase, rec, Some(d), text, now) == Next(PainReason, rec, Some(d.(lastCase := Some(text))))
  {
    StepOfTrimmed(PainCase, rec, Some(d), text, now);
  }

  lemma ReasonStep(rec: Record, d: Pain, text: string, now: string)
    requires Trimmed(text)
    ensures Step(PainReason, rec, Some(d), text, now) == Next(PainEmotion, rec, Some(d.(reason := Some(text))))
  {
    StepOfTrimmed(PainReason, rec, Some(d), text, now);
  }

  lemma EmotionStep(rec: Record, d: Pain, text: string, now: string)
    requires Trimmed(text) && text != OtherToken
    ensures Step(PainEmotion, rec, Some(d), text, now) == Next(PainScore, rec, Some(d.(emotion := Some(text))))
  {
    StepOfTrimmed(PainEmotion, rec, Some(d), text, now);
  }

  lemma ScoreStep(rec: Record, d: Pain, text: string, score: int, now: string)
    requires Trimmed(text) && ParseScore(text) == Some(score)
    requires !EmotionMissing(d) && d.name.Some? && rec.painAnalysis == []
    ensures Step(PainScore, rec, Some(d), text, now)
              == Next(PainName, rec.(painAnalysis := [d.(score := Some(score))]), None)
  {
    StepOfTrimmed(PainScore, rec, Some(d), text, now);
    ScoreHandled(rec, d, text, score);
  }

  lemma ScoreHandled(rec: Record, d: Pain, text: string, score: int)
    requires ParseScore(text) == Some(score)
    requires !EmotionMissing(d) && d.name.Some? && rec.painAnalysis == []
    ensures OnPainScore(rec, Some(d), text) == Next(PainName, rec.(painAnalysis := [d.(score := Some(score))]), None)
  {
    assert rec.painAnalysis + [d.(score := Some(score))] == [d.(score := Some(score))];
  }

  lemma AdvanceStep(rec: Record, text: string, now: string)
    requires Trimmed(text) && IsAdvance(text) && rec.painAnalysis != []
    ensures Step(PainName, rec, None, text, now) == Next(MagicWand, rec, None)
  {
    StepOfTrimmed(PainName, rec, None, text, now);
  }

  lemma WandStep(rec: Record, draft: Option<Pain>, wand: string, now: string)
    requires Trimmed(wand)
    ensures Step(MagicWand, rec, draft, wand, now) == Next(InsightsSurprise, rec.(magicWand := wand), draft)
  {
    StepOfTrimmed(MagicWand, rec, draft, wand, now);
  }

  lemma SurpriseStep(rec: Record, draft: Option<Pain>, text: string, now: string)
    requires Trimmed(text)
    ensures Step(InsightsSurprise, rec, draft, text, now)
              == Next(InsightsNeeds, rec.(insights := rec.insights.(surprise := text)), draft)
  {
    StepOfTrimmed(InsightsSurprise, rec, draft, text, now);
  }

  lemma NeedsStep(rec: Record, draft: Option<Pain>, text: string, now: string)
    requires Trimmed(text)
    ensures Step(InsightsNeeds, rec, draft, text, now)
              == Next(InsightsFood, rec.(insights := rec.insights.(hiddenNeeds := text)), draft)
  {
    StepOfTrimmed(InsightsNeeds, rec, draft, text, now);
  }

  lemma FoodStep(rec: Record, draft: Option<Pain>, text: string, now: string)
    requires Trimmed(text)
    ensures Step(InsightsFood, rec, draft, text, now)
              == Next(InsightsPay, rec.(insights := rec.insights.(foodSignals := text)), draft)
  {
    StepOfTrimmed(InsightsFood, rec, draft, text, now);
  }

  lemma PayStep(rec: Record, draft: Option<Pain>, text: string, now: string)
    requires Trimmed(text)
    ensures Step(InsightsPay, rec, draft, text, now)
              == Finished(rec.(insights := rec.insights.(willingnessToPay := text)))
  {
    StepOfTrimmed(InsightsPay, rec, draft, text, now);
  }

  // Each answer above, fed in front of the rest of the conversation.

  lemma RespondentRun(rec: Record, draft: Option<Pain>, id: string, now: string, rest: seq<Msg>)
    requires Trimmed(id)
    ensures Run(Next(RespondentInfo, rec, draft), [Msg(id, now)] + rest)
              == Run(Next(DayMap, rec.(respondentId := Some(id), date := Some(now)), draft), rest)
  {
    RespondentStep(rec, draft, id, now);
    RunThrough(Next(RespondentInfo, rec, draft), Msg(id, now), rest,
               Next(DayMap, rec.(respondentId := Some(id), date := Some(now)), draft));
  }

  lemma DayRun(rec: Record, draft: Option<Pain>, day: string, now: string, rest: seq<Msg>)
    requires Trimmed(day)
    ensures Run(Next(DayMap, rec, draft), [Msg(day, now)] + rest)
              == Run(Next(PainPoints, rec.(dayDescription := day), draft), rest)
  {
    DayStep(rec, draft, day, now);
    RunThrough(Next(DayMap, rec, draft), Msg(day, now), rest, Next(PainPoints, rec.(dayDescription := day), draft));
  }

  lemma PointRun(rec: Record, draft: Option<Pain>, point: string, now: string, rest: seq<Msg>)
    requires Trimmed(point) && rec.painPoints == [] && !IsPainPointsControl(point)
    ensures Run(Next(PainPoints, rec, draft), [Msg(point, now)] + rest)
              == Run(Next(PainPoints, rec.(painPoints := [point]), draft), rest)
  {
    PointStep(rec, draft, point, now);
    RunThrough(Next(PainPoints, rec, draft), Msg(point, now), rest, Next(PainPoints, rec.(painPoints := [point]), draft));
  }

  lemma ContinueRun(rec: Record, draft: Option<Pain>, now: string, rest: seq<Msg>)
    ensures Run(Next(PainPoints, rec, draft), [Msg(ContinueToken, now)] + rest)
              == Run(Next(RegularProblems, rec, draft), rest)
  {
    ContinueStep(rec, draft, now);
    RunThrough(Next(PainPoints, rec, draft), Msg(ContinueToken, now), rest, Next(RegularProblems, rec, draft));
  }

  lemma MainPainsRun(rec: Record, draft: Option<Pain>, main: string, now: string)
    requires Trimmed(main)
    ensures Run(Next(RegularProblems, rec, draft), [Msg(main, now)]) == Next(PainName, rec.(mainPains := main), draft)
  {
    MainPainsStep(rec, draft, main, now);
    RunOne(Next(RegularProblems, rec, draft), Msg(main, now), Next(PainName, rec.(mainPains := main), draft));
  }

  lemma NameRun(rec: Record, draft: Option<Pain>, name: string, now: string, rest: seq<Msg>)
    requires Trimmed(name) && !IsAdvance(name) && rec.mostAnnoying == ""
    ensures Run(Next(PainName, rec, draft), [Msg(name, now)] + rest)
              == Run(Next(PainCase, rec.(mostAnnoying := name), Some(NewPain(name, 0))), rest)
  {
    NameStep(rec, draft, name, now);
    RunThrough(Next(PainName, rec, draft), Msg(name, now), rest,
               Next(PainCase, rec.(mostAnnoying := name), Some(NewPain(name, 0))));
  }

  lemma CaseRun(rec: Record, d: Pain, text: string, now: string, rest: seq<Msg>)
    requires Trimmed(text)
    ensures Run(Next(PainCase, rec, Some(d)), [Msg(text, now)] + rest)
              == Run(Next(PainReason, rec, Some(d.(lastCase := Some(text)))), rest)
  {
    CaseStep(rec, d, text, now);
    RunThrough(Next(PainCase, rec, Some(d)), Msg(text, now), rest, Next(PainReason, rec, Some(d.(lastCase := Some(text)))));
  }

  lemma ReasonRun(rec: Record, d: Pain, text: string, now: string, rest: seq<Msg>)
    requires Trimmed(text)
    ensures Run(Next(PainReason, rec, Some(d)), [Msg(text, now)] + rest)
              == Run(Next(PainEmotion, rec, Some(d.(reason := Some(text)))), rest)
  {
    ReasonStep(rec, d, text, now);
    RunThrough(Next(PainReason, rec, Some(d)), Msg(text, now), rest, Next(PainEmotion, rec, Some(d.(reason := Some(text)))));
  }

  lemma EmotionRun(rec: Record, d: Pain, text: string, now: string, rest: seq<Msg>)
    requires Trimmed(text) && text != OtherToken
    ensures Run(Next(PainEmotion, rec, Some(d)), [Msg(text, now)] + rest)
              == Run(Next(PainScore, rec, Some(d.(emotion := Some(text)))), rest)
  {
    EmotionStep(rec, d, text, now);
    RunThrough(Next(PainEmotion, rec, Some(d)), Msg(text, now), rest, Next(PainScore, rec, Some(d.(emotion := Some(text)))));
  }

  lemma ScoreRun(rec: Record, d: Pain, text: string, score: int, now: string, rest: seq<Msg>)
    requires Trimmed(text) && ParseScore(text) == Some(score)
    requires !EmotionMissing(d) && d.name.Some? && rec.painAnalysis == []
    ensures Run(Next(PainScore, rec, Some(d)), [Msg(text, now)] + rest)
              == Run(Next(PainName, rec.(painAnalysis := [d.(score := Some(score))]), None), rest)
  {
    ScoreStep(rec, d, text, score, now);
    RunThrough(Next(PainScore, rec, Some(d)), Msg(text, now), rest,
               Next(PainName, rec.(painAnalysis := [d.(score := Some(score))]), None));
  }

  lemma AdvanceRun(rec: Record, text: string, now: string)
    requires Trimmed(text) && IsAdvance(text) && rec.painAnalysis != []
    ensures Run(Next(PainName, rec, None), [Msg(text, now)]) == Next(MagicWand, rec, None)
  {
    AdvanceStep(rec, text, now);
    RunOne(Next(PainName, rec, None), Msg(text, now), Next(MagicWand, rec, None));
  }

  lemma WandRun(rec: Record, draft: Option<Pain>, wand: string, now: string, rest: seq<Msg>)
    requires Trimmed(wand)
    ensures Run(Next(MagicWand, rec, draft), [Msg(wand, now)] + rest)
              == Run(Next(InsightsSurprise, rec.(magicWand := wand), draft), rest)
  {
    WandStep(rec, draft, wand, now);
    RunThrough(Next(MagicWand, rec, draft), Msg(wand, now), rest, Next(InsightsSurprise, rec.(magicWand := wand), draft));
  }

  lemma SurpriseRun(rec: Record, draft: Option<Pain>, text: string, now: string, rest: seq<Msg>)
    requires Trimmed(text)
    ensures Run(Next(InsightsSurprise, rec, draft), [Msg(text, now)] + rest)
              == Run(Next(InsightsNeeds, rec.(insights := rec.insights.(surprise := text)), draft), rest)
  {
    SurpriseStep(rec, draft, text, now);
    RunThrough(Next(InsightsSurprise, rec, draft), Msg(text, now), rest,
               Next(InsightsNeeds, rec.(insights := rec.insights.(surprise := text)), draft));
  }

  lemma NeedsRun(rec: Record, draft: Option<Pain>, text: string, now: string, rest: seq<Msg>)
    requires Trimmed(text)
    ensures Run(Next(InsightsNeeds, rec, draft), [Msg(text, now)] + rest)
              == Run(Next(InsightsFood, rec.(insights := rec.insights.(hiddenNeeds := text)), draft), rest)
  {
    NeedsStep(rec, draft, text, now);
    RunThrough(Next(InsightsNeeds, rec, draft), Msg(text, now), rest,
               Next(InsightsFood, rec.(insights := rec.insights.(hiddenNeeds := text)), draft));
  }

  lemma FoodRun(rec: Record, draft: Option<Pain>, text: string, now: string, rest: seq<Msg>)
    requires Trimmed(text)
    ensures Run(Next(InsightsFood, rec, draft), [Msg(text, now)] + rest)
              == Run(Next(InsightsPay, rec.(insights := rec.insights.(foodSignals := text)), draft), rest)
  {
    FoodStep(rec, draft, text, now);
    RunThrough(Next(InsightsFood, rec, draft), Msg(text, now), rest,
               Next(InsightsPay, rec.(insights := rec.insights.(foodSignals := text)), draft));
  }

  lemma PayRun(rec: Record, draft: Option<Pain>, text: string, now: string)
    requires Trimmed(text)
    ensures Run(Next(InsightsPay, rec, draft), [Msg(text, now)])
              == Finished(rec.(insights := rec.insights.(willingnessToPay := text)))
  {
    PayStep(rec, draft, text, now);
    RunOne(Next(InsightsPay, rec, draft), Msg(text, now), Finished(rec.(insights := rec.insights.(willingnessToPay := text))));
  }

  /** Respondent, day, one pain point, the continue button and the main
      pains lead to the name question with all of them recorded. */
  lemma OpeningPhase(rec: Record, draft: Option<Pain>, id: string, day: string, point: string, main: string, now: string)
    requires Trimmed(id) && Trimmed(day) && Trimmed(point) && Trimmed(main)
    requires rec.painPoints == [] && !IsPainPointsControl(point)
    ensures Run(Next(RespondentInfo, rec, draft), Opening(id, day, point, main, now))
              == Next(PainName, rec.(respondentId := Some(id), date := Some(now), dayDescription := day,
                                     painPoints := [point], mainPains := main), draft)
  {
    var r1 := rec.(respondentId := Some(id), date := Some(now));
    var r2 := r1.(dayDescription := day);
    var r3 := r2.(painPoints := [point]);
    var m2, m3, m4, m5 := Msg(day, now), Msg(point, now), Msg(ContinueToken, now), Msg(main, now);
    RespondentRun(rec, draft, id, now, [m2] + ([m3] + ([m4] + [m5])));
    DayRun(r1, draft, day, now, [m3] + ([m4] + [m5]));
    PointRun(r2, draft, point, now, [m4] + [m5]);
    ContinueRun(r3, draft, now, [m5]);
    MainPainsRun(r3, draft, main, now);
  }

  /** One pain described in full and scored, then an advance word: the
      pain is committed with everything given, and the loop is left. */
  lemma PainLoopPhase(rec: Record, draft: Option<Pain>, name: string, lastCase: string, reason: string,
                      emotion: string, scoreText: string, score: int, advance: string, now: string)
    requires Trimmed(name) && Trimmed(lastCase) && Trimmed(reason) && Trimmed(emotion)
    requires Trimmed(scoreText) && Trimmed(advance)
    requires rec.painAnalysis == [] && rec.mostAnnoying == ""
    requires !IsAdvance(name) && IsAdvance(advance)
    requires emotion != OtherToken && emotion != ""
    requires ParseScore(scoreText) == Some(score)
    ensures Run(Next(PainName, rec, draft), PainLoop(name, lastCase, reason, emotion, scoreText, advance, now))
              == Next(MagicWand, rec.(mostAnnoying := name,
                                      painAnalysis := [Pain(Some(name), Some(lastCase), Some(reason), Some(emotion), Some(score))]),
                      None)
  {
    var r1 := rec.(mostAnnoying := name);
    var d1 := NewPain(name, 0);
    var d2 := d1.(lastCase := Some(lastCase));
    var d3 := d2.(reason := Some(reason));
    var d4 := d3.(emotion := Some(emotion));
    var r5 := r1.(painAnalysis := [d4.(score := Some(score))]);
    var m2, m3, m4 := Msg(lastCase, now), Msg(reason, now), Msg(emotion, now);
    var m5, m6 := Msg(scoreText, now), Msg(advance, now);
    NameRun(rec, draft, name, now, [m2] + ([m3] + ([m4] + ([m5] + [m6]))));
    CaseRun(r1, d1, lastCase, now, [m3] + ([m4] + ([m5] + [m6])));
    ReasonRun(r1, d2, reason, now, [m4] + ([m5] + [m6]));
    EmotionRun(r1, d3, emotion, now, [m5] + [m6]);
    ScoreRun(r1, d4, scoreText, score, now, [m6]);
    AdvanceRun(r5, advance, now);
  }

  /** The magic wand and the four insight answers complete the interview. */
  lemma ClosingPhase(rec: Record, draft: Option<Pain>, wand: string, surprise: string, needs: string,
                     food: string, pay: string, now: string)
    requires Trimmed(wand) && Trimmed(surprise) && Trimmed(needs) && Trimmed(food) && Trimmed(pay)
    ensures Run(Next(MagicWand, rec, draft), Closing(wand, surprise, needs, food, pay, now))
              == Finished(rec.(magicWand := wand, insights := Insights(surprise, needs, food, pay)))
  {
    var r1 := rec.(magicWand := wand);
    var r2 := r1.(insights := r1.insights.(surprise := surprise));
    var r3 := r2.(insights := r2.insights.(hiddenNeeds := needs));
    var r4 := r3.(insights := r3.insights.(foodSignals := food));
    var m2, m3, m4, m5 := Msg(surprise, now), Msg(needs, now), Msg(food, now), Msg(pay, now);
    WandRun(rec, draft, wand, now, [m2] + ([m3] + ([m4] + [m5])));
    SurpriseRun(r1, draft, surprise, now, [m3] + ([m4] + [m5]));
    NeedsRun(r2, draft, needs, now, [m4] + [m5]);
    FoodRun(r3, draft, food, now, [m5]);
    PayRun(r4, draft, pay, now);
  }

  /** Every message of one interview, in the order they are sent. */
  function Conversation(id: string, day: string, point: string, main: string,
                     name: string, lastCase: string, reason: string, emotion: string, scoreText: string,
                     advance: string, wand: string, surprise: string, needs: string, food: string,
                     pay: string, now: string): seq<Msg> {
    Opening(id, day, point, main, now)
      + (PainLoop(name, lastCase, reason, emotion, scoreText, advance, now)
         + Closing(wand, surprise, needs, food, pay, now))
  }

  /** After `start`, one selected pain point, one fully described pain and
      the closing answers finish the interview with a record holding
      exactly those answers. */
  lemma WholeInterview(draft: Option<Pain>, id: string, day: string, point: string, main: string,
                       name: string, lastCase: string, reason: string, emotion: string,
                       scoreText: string, score: int, advance: string, wand: string,
                       surprise: string, needs: string, food: string, pay: string, now: string)
    requires Trimmed(id) && Trimmed(day) && Trimmed(point) && Trimmed(main)
    requires Trimmed(name) && Trimmed(lastCase) && Trimmed(reason) && Trimmed(emotion)
    requires Trimmed(scoreText) && Trimmed(advance)
    requires Trimmed(wand) && Trimmed(surprise) && Trimmed(needs) && Trimmed(food) && Trimmed(pay)
    requires !IsPainPointsControl(point) && !IsAdvance(name) && IsAdvance(advance)
    requires emotion != OtherToken && emotion != ""
    requires ParseScore(scoreText) == Some(score)
    ensures Run(Begin(draft), Conversation(id, day, point, main, name, lastCase, reason, emotion, scoreText,
                                        advance, wand, surprise, needs, food, pay, now))
              == Finished(Record(Some(id), Some(now), day, [point], main, name,
                                 [Pain(Some(name), Some(lastCase), Some(reason), Some(emotion), Some(score))],
                                 wand, Insights(surprise, needs, food, pay)))
  {
    var rec0 := FreshRecord();
    var opening := Opening(id, day, point, main, now);
    var loop := PainLoop(name, lastCase, reason, emotion, scoreText, advance, now);
    var closing := Closing(wand, surprise, needs, food, pay, now);
    var r1 := rec0.(respondentId := Some(id), date := Some(now), dayDescription := day,
                     painPoints := [point], mainPains := main);
    var r2 := r1.(mostAnnoying := name,
                  painAnalysis := [Pain(Some(name), Some(lastCase), Some(reason), Some(emotion), Some(score))]);
    OpeningPhase(rec0, draft, id, day, point, main, now);
    PainLoopPhase(r1, draft, name, lastCase, reason, emotion, scoreText, score, advance, now);
    ClosingPhase(r2, None, wand, surprise, needs, food, pay, now);
    RunAppend(Begin(draft), opening, loop + closing);
    RunAppend(Next(PainName, r1, draft), loop, closing);
  }

  // The concrete respondent: facts about the literal answers.

  lemma SampleOpeningTrimmed()
    ensures Trimmed("42") && Trimmed("busy day") && Trimmed("Длинные очереди") && Trimmed("queues")
  {
  }

  lemma SamplePainTrimmed()
    ensures Trimmed("Waiting") && Trimmed("cafeteria") && Trimmed("too slow") && Trimmed("Раздражение")
    ensures Trimmed("8") && Trimmed("дальше")
  {
  }

  lemma SampleClosingTrimmed()
    ensures Trimmed("more staff") && Trimmed("prices") && Trimmed("quiet corner") && Trimmed("coffee")
    ensures Trimmed("300")
  {
  }

  lemma SampleControlWords()
    ensures !IsPainPointsControl("Длинные очереди") && "Раздражение" != OtherToken
  {
  }

  lemma SampleNameIsNoAdvance()
    ensures !IsAdvance("Waiting")
  {
    assert |Lower("Waiting")| == 7;
  }

  lemma SampleAdvance()
    ensures IsAdvance("дальше")
  {
    assert Lower("дальше") == "дальше";
    assert AdvanceTokens[0] == "дальше";
  }

  lemma SampleScore()
    ensures ParseScore("8") == Some(8)
  {
    assert AllDigits("8");
    assert DigitsValue("8") == 8 by {
      assert "8"[..0] == [];
    }
  }

  /** The sample interview: respondent 42 picks one pain point and
      describes the pain "Waiting" with score 8, then answers the closing
      questions. */
  lemma SampleInterview(draft: Option<Pain>, now: string)
    ensures Run(Begin(draft), Conversation("42", "busy day", "Длинные очереди", "queues", "Waiting", "cafeteria",
                                        "too slow", "Раздражение", "8", "дальше", "more staff", "prices",
                                        "quiet corner", "coffee", "300", now))
              == Finished(SampleRecord(now))
  {
    SampleOpeningTrimmed();
    SamplePainTrimmed();
    SampleClosingTrimmed();
    SampleControlWords();
    SampleNameIsNoAdvance();
    SampleAdvance();
    SampleScore();
    WholeInterview(draft, "42", "busy day", "Длинные очереди", "queues", "Waiting", "cafeteria",
                   "too slow", "Раздражение", "8", 8, "дальше", "more staff", "prices",
                   "quiet corner", "coffee", "300", now);
  }

  function SampleRecord(now: string): Record {
    Record(Some("42"), Some(now), "busy day", ["Длинные очереди"], "queues", "Waiting",
           [Pain(Some("Waiting"), Some("cafeteria"), Some("too slow"), Some("Раздражение"), Some(8))],
           "more staff", Insights("prices", "quiet corner", "coffee", "300"))
  }

  /** Saving a record with a single pain adds that pain to the counts
      according to its score. */
  lemma SinglePainCounted(rows: seq<Row>, rec: Record, capturedAt: string)
    requires |rec.painAnalysis| == 1
    ensures var s := Stats(Save(rows, rec, capturedAt));
            var score := rec.painAnalysis[0].score.GetOr(0);
            && s.Some?
            && s.value.total == |rows| + 1
            && s.value.lastDate == rec.date.GetOr("")
            && s.value.pains == TotalScored(rows) + (if score > 0 then 1 else 0)
            && s.value.high == TotalHigh(rows) + (if score >= 7 then 1 else 0)
  {
    var entries := rec.painAnalysis;
    assert entries[..Min(MaxPains, |entries|)] == entries;
    OnePainCounts(entries);
    StatsAfterSave(rows, rec, capturedAt);
  }

  lemma OnePainCounts(entries: seq<Pain>)
    requires |entries| == 1
    ensures ScoredPains(entries) == (if entries[0].score.GetOr(0) > 0 then 1 else 0)
    ensures HighPains(entries) == (if entries[0].score.GetOr(0) >= 7 then 1 else 0)
  {
    assert entries[1..] == [];
  }

  /** Saving the sample interview adds one respondent, one scored pain
      and one high-intensity pain to the statistics. */
  lemma SampleInterviewCounted(rows: seq<Row>, now: string, capturedAt: string)
    ensures var s := Stats(Save(rows, SampleRecord(now), capturedAt));
            && s.Some?
            && s.value.total == |rows| + 1
            && s.value.lastDate == now
            && s.value.pains == TotalScored(rows) + 1
            && s.value.high == TotalHigh(rows) + 1
  {
    SinglePainCounted(rows, SampleRecord(now), capturedAt);
  }

  function ScoredGroup(score: int): PainGroup {
    PainGroup("", score, "", "", "")
  }

  /** One row whose five pains are scored 2, 7, 9, 4 and 10: all five are
      counted, three of them as high intensity. */
  lemma MixedScores(row: Row)
    requires row.pains == [ScoredGroup(2), ScoredGroup(7), ScoredGroup(9), ScoredGroup(4), ScoredGroup(10)]
    ensures Stats([row]) == Some(Summary(1, row.date, row.date, 5, 3))
  {
    var gs := row.pains;
    assert Examined(row) == gs;
    assert gs[4..][1..] == [];
    assert CountScored(gs[4..]) == 1 && CountHigh(gs[4..]) == 1;
    assert gs[3..][1..] == gs[4..];
    assert CountScored(gs[3..]) == 2 && CountHigh(gs[3..]) == 1;
    assert gs[2..][1..] == gs[3..];
    assert CountScored(gs[2..]) == 3 && CountHigh(gs[2..]) == 2;
    assert gs[1..][1..] == gs[2..];
    assert CountScored(gs[1..]) == 4 && CountHigh(gs[1..]) == 3;
    assert gs[0..] == gs;
    assert CountScored(gs) == 5 && CountHigh(gs) == 3;
    assert [row][1..] == [];
    assert TotalScored([row]) == 5 && TotalHigh([row]) == 3;
  }
}
