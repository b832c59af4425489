/** The stage transition engine: one pure step per incoming message, taking
    the current stage, the interview record and the pain under construction
    to the next stage, record and draft. */
module Engine {
  import opened Wrappers
  import opened Text
  import opened Interview

  /** What a handler returns. `Next` keeps the conversation going,
      `Finished` is the normal end after the last question, `Aborted` is a
      handler that raised: the exception was caught and the conversation
      ended, keeping whatever had already been changed. */
  datatype Outcome =
    | Next(stage: Stage, rec: Record, draft: Option<Pain>)
    | Finished(rec: Record)
    | Aborted(rec: Record, draft: Option<Pain>)

  /** One of the four buttons the pain-point stage treats as a command
      (exact, case-sensitive comparison). */
  predicate IsPainPointsControl(choice: string) {
    choice == ContinueToken || choice == SelectMoreToken || choice == OtherToken
    || choice == SkipToken
  }

  /** An answer that ends the pain-analysis loop: compared after
      lower-casing. */
  predicate IsAdvance(text: string) {
    Lower(text) in AdvanceTokens
  }

  /** `int(text)` accepted only between 1 and 10. */
  function ParseScore(text: string): (r: Option<int>)
    ensures r.Some? ==> 1 <= r.value <= 10 && ParseInt(text) == r
    ensures ParseInt(text).Some? && 1 <= ParseInt(text).value <= 10 ==> r.Some?
  {
    match ParseInt(text)
    case Some(v) => if v < 1 || v > 10 then None else Some(v)
    case None => None
  }

  /** `not current_pain.get('emotion')`: the key is missing or empty. */
  predicate EmotionMissing(p: Pain) {
    p.emotion.GetOr("") == ""
  }

  /** The entry a valid score commits: the draft with the score filled in,
      or, when there is no draft, one named after the most annoying pain. */
  function CommittedEntry(rec: Record, draft: Option<Pain>, score: int): (p: Pain)
    ensures p.score == Some(score)
    ensures draft.Some? ==> p == draft.value.(score := Some(score))
    ensures draft.None? ==> HasAllKeys(p) && p.name.Some? && p.name.value != ""
    ensures draft.None? ==>
              p == NewPain(if rec.mostAnnoying != "" then rec.mostAnnoying else NotSpecified, score)
  {
    match draft
    case Some(d) => d.(score := Some(score))
    case None => NewPain(if rec.mostAnnoying != "" then rec.mostAnnoying else NotSpecified, score)
  }

  /** The multi-select pain-point stage. */
  function OnPainPoints(rec: Record, draft: Option<Pain>, choice: string): (o: Outcome)
    ensures o.Next? && o.draft == draft
    ensures choice == ContinueToken || choice == SkipToken ==>
              o.stage == RegularProblems && o.rec == rec
    ensures choice == SelectMoreToken ==> o.stage == PainPoints && o.rec == rec
    ensures choice == OtherToken ==> o.stage == PainPointsOther && o.rec == rec
    ensures !IsPainPointsControl(choice) ==>
              && o.stage == PainPoints
              && o.rec == rec.(painPoints := o.rec.painPoints)
              && choice in o.rec.painPoints
              && rec.painPoints <= o.rec.painPoints
              && |o.rec.painPoints| == |rec.painPoints| + (if choice in rec.painPoints then 0 else 1)
  {
    if choice == ContinueToken then Next(RegularProblems, rec, draft)
    else if choice == SelectMoreToken then Next(PainPoints, rec, draft)
    else if choice == OtherToken then Next(PainPointsOther, rec, draft)
    else if choice == SkipToken then Next(RegularProblems, rec, draft)
    else
      var points := if choice in rec.painPoints then rec.painPoints else rec.painPoints + [choice];
      Next(PainPoints, rec.(painPoints := points), draft)
  }

  /** The free-text "other" pain point: the raw text is looked up, but the
      marked text is what gets appended. */
  function OnPainPointsOther(rec: Record, draft: Option<Pain>, text: string): (o: Outcome)
    ensures o.Next? && o.stage == PainPoints && o.draft == draft
    ensures o.rec == rec.(painPoints := o.rec.painPoints)
    ensures text != "" && text !in rec.painPoints ==>
              o.rec.painPoints == rec.painPoints + [OtherPrefix + text]
    ensures text == "" || text in rec.painPoints ==> o.rec == rec
  {
    if text != "" && text !in rec.painPoints then
      Next(PainPoints, rec.(painPoints := rec.painPoints + [OtherPrefix + text]), draft)
    else
      Next(PainPoints, rec, draft)
  }

  /** Entry and re-entry of the pain-analysis loop: an advance word leaves
      the loop, anything else names a new pain. */
  function OnPainName(rec: Record, draft: Option<Pain>, text: string): (o: Outcome)
    ensures o.Next?
    ensures IsAdvance(text) ==>
              && o.stage == MagicWand && o.draft == draft
              && o.rec == rec.(painAnalysis := o.rec.painAnalysis)
              && (if rec.painAnalysis == [] && rec.mostAnnoying != ""
                  then o.rec.painAnalysis == [NewPain(rec.mostAnnoying, 0)]
                  else o.rec.painAnalysis == rec.painAnalysis)
    ensures !IsAdvance(text) ==>
              && o.stage == PainCase
              && o.draft == Some(NewPain(text, 0))
              && o.rec == rec.(mostAnnoying := o.rec.mostAnnoying)
              && o.rec.mostAnnoying == (if rec.mostAnnoying == "" then text else rec.mostAnnoying)
  {
    if IsAdvance(text) then
      if rec.painAnalysis == [] && rec.mostAnnoying != "" then
        Next(MagicWand, rec.(painAnalysis := [NewPain(rec.mostAnnoying, 0)]), draft)
      else
        Next(MagicWand, rec, draft)
    else
      var rec' := if rec.mostAnnoying == "" then rec.(mostAnnoying := text) else rec;
      Next(PainCase, rec', Some(NewPain(text, 0)))
  }

  /** The case, reason and emotion handlers start from `{}` when there is no
      pain under construction. */
  function DraftOrEmpty(draft: Option<Pain>): Pain {
    draft.GetOr(EmptyPain)
  }

  function OnPainCase(rec: Record, draft: Option<Pain>, text: string): (o: Outcome)
    ensures o.Next? && o.stage == PainReason && o.rec == rec
    ensures o.draft == Some(DraftOrEmpty(draft).(lastCase := Some(text)))
  {
    Next(PainReason, rec, Some(DraftOrEmpty(draft).(lastCase := Some(text))))
  }

  function OnPainReason(rec: Record, draft: Option<Pain>, text: string): (o: Outcome)
    ensures o.Next? && o.stage == PainEmotion && o.rec == rec
    ensures o.draft == Some(DraftOrEmpty(draft).(reason := Some(text)))
  {
    Next(PainEmotion, rec, Some(DraftOrEmpty(draft).(reason := Some(text))))
  }

  function OnPainEmotion(rec: Record, draft: Option<Pain>, text: string): (o: Outcome)
    ensures o.Next? && o.rec == rec && o.draft.Some?
    ensures text == OtherToken ==> o.stage == PainEmotion && o.draft == Some(DraftOrEmpty(draft))
    ensures text == OtherToken && draft.Some? ==> o.draft == draft
    ensures text != OtherToken ==>
              o.stage == PainScore && o.draft == Some(DraftOrEmpty(draft).(emotion := Some(text)))
  {
    var d := DraftOrEmpty(draft);
    if text == OtherToken then Next(PainEmotion, rec, Some(d))
    else Next(PainScore, rec, Some(d.(emotion := Some(text))))
  }

  /** The score stage. A draft without an emotion takes the message as its
      emotion first. Otherwise the message must be a score from 1 to 10; a
      valid one commits the entry and returns to the name question, and
      reading the name of an entry without one raises (after the commit). */
  function OnPainScore(rec: Record, draft: Option<Pain>, text: string): (o: Outcome)
    ensures draft.Some? && EmotionMissing(draft.value) ==>
              o == Next(PainScore, rec, Some(draft.value.(emotion := Some(text))))
    ensures !(draft.Some? && EmotionMissing(draft.value)) && ParseScore(text).None? ==>
              o == Next(PainScore, rec, draft)
    ensures !(draft.Some? && EmotionMissing(draft.value)) && ParseScore(text).Some? ==>
              var entry := CommittedEntry(rec, draft, ParseScore(text).value);
              && !o.Finished?
              && o.rec == rec.(painAnalysis := rec.painAnalysis + [entry])
              && (o.Aborted? <==> entry.name.None?)
              && (o.Aborted? ==> o.draft == Some(entry))
              && (o.Next? ==> o.stage == PainName && o.draft == None)
  {
    if draft.Some? && EmotionMissing(draft.value) then
      Next(PainScore, rec, Some(draft.value.(emotion := Some(text))))
    else
      match ParseScore(text)
      case None => Next(PainScore, rec, draft)
      case Some(score) =>
        var entry := CommittedEntry(rec, draft, score);
        var rec' := rec.(painAnalysis := rec.painAnalysis + [entry]);
        if entry.name.None? then Aborted(rec', Some(entry))
        else Next(PainName, rec', None)
  }

  /** Dispatches an already stripped message text to the handler of
      `stage`. No handler is registered for `Start`, so a message there
      changes nothing. */
  function Handle(stage: Stage, rec: Record, draft: Option<Pain>, text: string, now: string): (o: Outcome)
    ensures o.Finished? <==> stage == InsightsPay
    ensures o.Aborted? ==> stage == PainScore
    ensures stage == Start ==> o == Next(Start, rec, draft)
    ensures o.Next? && !InPainLoop(stage) && stage != PainName ==> o.draft == draft
    ensures stage != PainName && stage != PainScore ==> o.rec.painAnalysis == rec.painAnalysis
    ensures stage != PainPoints && stage != PainPointsOther ==> o.rec.painPoints == rec.painPoints
  {
    match stage
    case Start => Next(Start, rec, draft)
    case RespondentInfo => Next(DayMap, rec.(respondentId := Some(text), date := Some(now)), draft)
    case DayMap => Next(PainPoints, rec.(dayDescription := text), draft)
    case PainPoints => OnPainPoints(rec, draft, text)
    case PainPointsOther => OnPainPointsOther(rec, draft, text)
    case RegularProblems => Next(PainName, rec.(mainPains := text), draft)
    case PainName => OnPainName(rec, draft, text)
    case PainCase => OnPainCase(rec, draft, text)
    case PainReason => OnPainReason(rec, draft, text)
    case PainEmotion => OnPainEmotion(rec, draft, text)
    case PainScore => OnPainScore(rec, draft, text)
    case MagicWand => Next(InsightsSurprise, rec.(magicWand := text), draft)
    case InsightsSurprise => Next(InsightsNeeds, rec.(insights := rec.insights.(surprise := text)), draft)
    case InsightsNeeds => Next(InsightsFood, rec.(insights := rec.insights.(hiddenNeeds := text)), draft)
    case InsightsFood => Next(InsightsPay, rec.(insights := rec.insights.(foodSignals := text)), draft)
    case InsightsPay => Finished(rec.(insights := rec.insights.(willingnessToPay := text)))
  }

  /** One message, already past the transport: `input` is the raw text and
      `now` the clock reading formatted as the bot formats it. Every handler
      strips the text first. */
  function Step(stage: Stage, rec: Record, draft: Option<Pain>, input: string, now: string): Outcome
  {
    Handle(stage, rec, draft, Strip(input), now)
  }

  /** The conversation only moves forward through the questions, except
      where it goes back on purpose: from the free-text pain point to the
      pain-point question, and from a committed score to the next pain's
      name. */
  lemma HandleMovesForward(stage: Stage, rec: Record, draft: Option<Pain>, text: string, now: string)
    ensures var o := Handle(stage, rec, draft, text, now);
            o.Next? && stage != PainPointsOther && stage != PainScore ==>
              StageNumber(stage) <= StageNumber(o.stage)
  {
  }

  /** A message without surrounding white space reaches the handler as it
      is. */
  lemma StepOfTrimmed(stage: Stage, rec: Record, draft: Option<Pain>, input: string, now: string)
    requires Trimmed(input)
    ensures Step(stage, rec, draft, input, now) == Handle(stage, rec, draft, input, now)
  {
    StripOfTrimmed(input);
  }

  /** Only the answer to the last question completes an interview. */
  lemma StepFinishesOnlyAtLastQuestion(stage: Stage, rec: Record, draft: Option<Pain>, input: string, now: string)
    ensures Step(stage, rec, draft, input, now).Finished? <==> stage == InsightsPay
  {
  }

  /** A message together with the clock reading at its arrival. */
  datatype Msg = Msg(text: string, now: string)

  /** Feeds messages one by one while the conversation is going on; once it
      has ended, further messages are not handled. */
  function Run(o: Outcome, msgs: seq<Msg>): Outcome
    decreases |msgs|
  {
    if msgs == [] || !o.Next? then o
    else Run(Step(o.stage, o.rec, o.draft, msgs[0].text, msgs[0].now), msgs[1..])
  }

  /** Running a message list is stepping its first message and running the
      rest. */
  lemma RunCons(o: Outcome, m: Msg, rest: seq<Msg>)
    requires o.Next?
    ensures Run(o, [m] + rest) == Run(Step(o.stage, o.rec, o.draft, m.text, m.now), rest)
  {
    assert ([m] + rest)[1..] == rest;
  }

  /** Running two message lists one after the other is running their
      concatenation. */
  lemma {:induction false} RunAppend(o: Outcome, a: seq<Msg>, b: seq<Msg>)
    ensures Run(o, a + b) == Run(Run(o, a), b)
    decreases |a|
  {
    if a == [] {
      assert a + b == b;
    } else if o.Next? {
      assert (a + b)[0] == a[0];
      assert (a + b)[1..] == a[1..] + b;
      RunAppend(Step(o.stage, o.rec, o.draft, a[0].text, a[0].now), a[1..], b);
    }
  }

  /** Where `start` leaves a conversation: a fresh record at the respondent
      question. The pain under construction is not cleared by `start`. */
  function Begin(draft: Option<Pain>): Outcome {
    Next(RespondentInfo, FreshRecord(), draft)
  }
}
