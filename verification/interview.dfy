/** The interview record, the pain-analysis entries and the conversation
    stages, with the literal control tokens the handlers compare against. */
module Interview {
  import opened Wrappers

  /** The sixteen conversation states, numbered 0..15 by `range(16)`. */
  datatype Stage =
    | Start | RespondentInfo | DayMap | PainPoints | PainPointsOther | RegularProblems
    | PainName | PainCase | PainReason | PainEmotion | PainScore
    | MagicWand | InsightsSurprise | InsightsNeeds | InsightsFood | InsightsPay

  /** The number the bot gives each state. */
  function StageNumber(s: Stage): (n: nat)
    ensures n < 16
    ensures s == Start <==> n == 0
    ensures s == InsightsPay <==> n == 15
  {
    match s
    case Start => 0
    case RespondentInfo => 1
    case DayMap => 2
    case PainPoints => 3
    case PainPointsOther => 4
    case RegularProblems => 5
    case PainName => 6
    case PainCase => 7
    case PainReason => 8
    case PainEmotion => 9
    case PainScore => 10
    case MagicWand => 11
    case InsightsSurprise => 12
    case InsightsNeeds => 13
    case InsightsFood => 14
    case InsightsPay => 15
  }

  /** The states that make up one pass of the pain-analysis loop after the
      name has been given. */
  predicate InPainLoop(s: Stage) {
    s == PainCase || s == PainReason || s == PainEmotion || s == PainScore
  }

  /** The states before the pain-analysis loop is entered. */
  predicate BeforePainName(s: Stage) {
    s == RespondentInfo || s == DayMap || s == PainPoints || s == PainPointsOther
    || s == RegularProblems
  }

  /** A pain-analysis dictionary. A key may be missing (the case, reason and
      emotion handlers start from `{}` when there is no current pain), so
      every field is optional. */
  datatype Pain = Pain(
    name: Option<string>,
    lastCase: Option<string>,
    reason: Option<string>,
    emotion: Option<string>,
    score: Option<int>)

  /** The empty dictionary `{}`. */
  const EmptyPain: Pain := Pain(None, None, None, None, None)

  /** A dictionary with every key: the given name and score, empty texts. */
  function NewPain(name: string, score: int): (p: Pain)
    ensures p.name == Some(name) && p.score == Some(score)
    ensures p.lastCase == Some("") && p.reason == Some("") && p.emotion == Some("")
  {
    Pain(Some(name), Some(""), Some(""), Some(""), Some(score))
  }

  predicate HasAllKeys(p: Pain) {
    p.name.Some? && p.lastCase.Some? && p.reason.Some? && p.emotion.Some? && p.score.Some?
  }

  datatype Insights = Insights(
    surprise: string,
    hiddenNeeds: string,
    foodSignals: string,
    willingnessToPay: string)

  /** `InterviewData`. `respondentId` and `date` start as `None`; the
      `duration` attribute is never written nor read and is not kept. */
  datatype Record = Record(
    respondentId: Option<string>,
    date: Option<string>,
    dayDescription: string,
    painPoints: seq<string>,
    mainPains: string,
    mostAnnoying: string,
    painAnalysis: seq<Pain>,
    magicWand: string,
    insights: Insights)

  /** A freshly constructed `InterviewData()`. */
  function FreshRecord(): (r: Record)
    ensures r.respondentId.None? && r.date.None?
    ensures r.painPoints == [] && r.painAnalysis == [] && r.mostAnnoying == ""
    ensures r.dayDescription == "" && r.mainPains == "" && r.magicWand == ""
    ensures r.insights == Insights("", "", "", "")
  {
    Record(None, None, "", [], "", "", [], "", Insights("", "", "", ""))
  }

  // Reply-keyboard labels and other literal strings the handlers compare
  // against or store.

  const ContinueToken: string := "Продолжить"
  const SelectMoreToken: string := "Выбрать еще"
  const OtherToken: string := "Другое"
  const SkipToken: string := "Пропустить"

  /** The marker put in front of a pain point typed after choosing "Другое". */
  const OtherPrefix: string := "Другое: "

  /** The placeholder for a missing value. */
  const NotSpecified: string := "Не указано"

  /** The words that end the pain-analysis loop, compared after lower-casing. */
  const AdvanceTokens: seq<string> :=
    ["дальше", "продолжить", "next", "\U{27A1}\U{FE0F}", "пропустить", "skip"]
}
