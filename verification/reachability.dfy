/** What holds of every conversation that begins with `start` and is then
    driven only by messages: the defensive branches of the pain-analysis
    handlers are never taken and no handler raises. */
module Reachability {
  import opened Wrappers
  import opened Text
  import opened Interview
  import opened Engine

  /** An entry as the score handler commits it in the normal flow: every
      key present and a score from 1 to 10. */
  predicate Committed(p: Pain) {
    HasAllKeys(p) && 1 <= p.score.value <= 10
  }

  predicate AllCommitted(entries: seq<Pain>) {
    forall i :: 0 <= i < |entries| ==> Committed(entries[i])
  }

  /** The invariant of a running conversation. */
  predicate Inv(stage: Stage, rec: Record, draft: Option<Pain>) {
    && stage != Start
    && AllCommitted(rec.painAnalysis)
    && (BeforePainName(stage) ==> rec.painAnalysis == [] && rec.mostAnnoying == "")
    && (stage == PainName && rec.painAnalysis == [] ==> rec.mostAnnoying == "")
    && (InPainLoop(stage) ==> draft.Some? && HasAllKeys(draft.value))
  }

  predicate OutcomeInv(o: Outcome) {
    match o
    case Next(stage, rec, draft) => Inv(stage, rec, draft)
    case Finished(rec) => AllCommitted(rec.painAnalysis)
    case Aborted(_, _) => false
  }

  lemma BeginInv(draft: Option<Pain>)
    ensures OutcomeInv(Begin(draft))
  {
  }

  lemma AppendCommitted(entries: seq<Pain>, p: Pain)
    requires AllCommitted(entries) && Committed(p)
    ensures AllCommitted(entries + [p])
  {
  }

  lemma PainScoreKeepsInv(rec: Record, draft: Option<Pain>, text: string)
    requires Inv(PainScore, rec, draft)
    ensures OutcomeInv(OnPainScore(rec, draft, text))
  {
    if !(draft.Some? && EmotionMissing(draft.value)) && ParseScore(text).Some? {
      var entry := CommittedEntry(rec, draft, ParseScore(text).value);
      AppendCommitted(rec.painAnalysis, entry);
    }
  }

  lemma PainNameKeepsInv(rec: Record, draft: Option<Pain>, text: string)
    requires Inv(PainName, rec, draft)
    ensures OutcomeInv(OnPainName(rec, draft, text))
  {
  }

  lemma PainPointsKeepInv(stage: Stage, rec: Record, draft: Option<Pain>, text: string)
    requires stage == PainPoints || stage == PainPointsOther
    requires Inv(stage, rec, draft)
    ensures stage == PainPoints ==> OutcomeInv(OnPainPoints(rec, draft, text))
    ensures stage == PainPointsOther ==> OutcomeInv(OnPainPointsOther(rec, draft, text))
  {
  }

  lemma HandleKeepsInv(stage: Stage, rec: Record, draft: Option<Pain>, text: string, now: string)
    requires Inv(stage, rec, draft)
    ensures OutcomeInv(Handle(stage, rec, draft, text, now))
  {
    match stage
    case PainScore => PainScoreKeepsInv(rec, draft, text);
    case PainName => PainNameKeepsInv(rec, draft, text);
    case PainPoints => PainPointsKeepInv(stage, rec, draft, text);
    case PainPointsOther => PainPointsKeepInv(stage, rec, draft, text);
    case PainCase => DetailsKeepInv(stage, rec, draft, text, now);
    case PainReason => DetailsKeepInv(stage, rec, draft, text, now);
    case PainEmotion => DetailsKeepInv(stage, rec, draft, text, now);
    case _ => AnswersKeepInv(stage, rec, draft, text, now);
  }

  lemma DetailsKeepInv(stage: Stage, rec: Record, draft: Option<Pain>, text: string, now: string)
    requires stage == PainCase || stage == PainReason || stage == PainEmotion
    requires Inv(stage, rec, draft)
    ensures OutcomeInv(Handle(stage, rec, draft, text, now))
  {
  }

  lemma AnswersKeepInv(stage: Stage, rec: Record, draft: Option<Pain>, text: string, now: string)
    requires !InPainLoop(stage) && stage != PainName && stage != PainPoints && stage != PainPointsOther
    requires Inv(stage, rec, draft)
    ensures OutcomeInv(Handle(stage, rec, draft, text, now))
  {
  }

  /** Every step of a running conversation keeps the invariant, and none
      raises. */
  lemma StepKeepsInv(stage: Stage, rec: Record, draft: Option<Pain>, input: string, now: string)
    requires Inv(stage, rec, draft)
    ensures OutcomeInv(Step(stage, rec, draft, input, now))
  {
    HandleKeepsInv(stage, rec, draft, Strip(input), now);
  }

  lemma {:induction false} RunKeepsInv(o: Outcome, msgs: seq<Msg>)
    requires OutcomeInv(o)
    ensures OutcomeInv(Run(o, msgs))
    decreases |msgs|
  {
    if msgs != [] && o.Next? {
      StepKeepsInv(o.stage, o.rec, o.draft, msgs[0].text, msgs[0].now);
      RunKeepsInv(Step(o.stage, o.rec, o.draft, msgs[0].text, msgs[0].now), msgs[1..]);
    }
  }

  /** However the respondent answers, a conversation started with `start`
      never ends in a caught exception: the `KeyError` on a nameless pain
      cannot happen. */
  lemma NeverAborts(draft: Option<Pain>, msgs: seq<Msg>)
    ensures !Run(Begin(draft), msgs).Aborted?
  {
    BeginInv(draft);
    RunKeepsInv(Begin(draft), msgs);
  }

  /** From the case question to the score question a pain with a name is
      always under construction, so the `{}` fallbacks of the case, reason
      and emotion handlers and the recovered entry of the score handler are
      never used; a valid score commits exactly the draft. */
  lemma DraftPresentInPainLoop(draft: Option<Pain>, msgs: seq<Msg>)
    ensures var o := Run(Begin(draft), msgs);
            o.Next? && InPainLoop(o.stage) ==>
              && o.draft.Some? && HasAllKeys(o.draft.value)
              && DraftOrEmpty(o.draft) == o.draft.value
              && (forall v :: CommittedEntry(o.rec, o.draft, v) == o.draft.value.(score := Some(v)))
  {
    BeginInv(draft);
    RunKeepsInv(Begin(draft), msgs);
  }

  /** At the name question, no committed pain means no most annoying pain
      either, so leaving the loop never synthesises a zero-score entry. */
  lemma ZeroScoreSynthesisUnreachable(draft: Option<Pain>, msgs: seq<Msg>, input: string, now: string)
    ensures var o := Run(Begin(draft), msgs);
            o.Next? && o.stage == PainName ==>
              && (o.rec.painAnalysis == [] ==> o.rec.mostAnnoying == "")
              && (IsAdvance(Strip(input)) ==>
                    Step(o.stage, o.rec, o.draft, input, now) == Next(MagicWand, o.rec, o.draft))
  {
    var o := Run(Begin(draft), msgs);
    BeginInv(draft);
    RunKeepsInv(Begin(draft), msgs);
    if o.Next? && o.stage == PainName {
      AdvanceKeepsRecord(o.rec, o.draft, input, now);
    }
  }

  lemma AdvanceKeepsRecord(rec: Record, draft: Option<Pain>, input: string, now: string)
    requires Inv(PainName, rec, draft)
    ensures IsAdvance(Strip(input)) ==> Step(PainName, rec, draft, input, now) == Next(MagicWand, rec, draft)
  {
  }

  /** Every pain the record holds, while running or once finished, has all
      its keys and a score from 1 to 10. */
  lemma CommittedScoresInRange(draft: Option<Pain>, msgs: seq<Msg>)
    ensures var o := Run(Begin(draft), msgs);
            forall i :: 0 <= i < |o.rec.painAnalysis| ==>
              HasAllKeys(o.rec.painAnalysis[i]) && 1 <= o.rec.painAnalysis[i].score.value <= 10
  {
    BeginInv(draft);
    RunKeepsInv(Begin(draft), msgs);
  }
}
