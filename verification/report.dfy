/** The report shown at the end of an interview, and its cutting into
    messages the chat transport accepts. */
module Report {
  import opened Wrappers
  import opened Text
  import opened Interview

  /** The severity mark after a score. */
  function Icon(score: int): (r: string)
    ensures r == "❗" <==> score >= 7
    ensures r == "⚠️" <==> 4 <= score < 7
    ensures r == "✓" <==> score < 4
  {
    if score >= 7 then "❗" else if score >= 4 then "⚠️" else "✓"
  }

  /** `value or 'Не указано'` for a text. */
  function OrNotSpecified(s: string): (r: string)
    ensures r != ""
    ensures s == "" ==> r == NotSpecified
    ensures s != "" ==> r == s
  {
    if s == "" then NotSpecified else s
  }

  /** The second line of a pain's block: its score out of 10 and mark. */
  function ScoreLine(p: Pain): string {
    var score := p.score.GetOr(0);
    "    Оценка: " + IntToString(score) + "/10 " + Icon(score)
  }

  /** The six lines of pain number `n`. A missing key reads as
      "Не указано", a missing score as 0. */
  function PainLines(n: nat, p: Pain): (lines: seq<string>)
    ensures |lines| == 6
    ensures lines[1] == ScoreLine(p)
  {
    [ "  Боль #" + IntToString(n) + ": " + p.name.GetOr(NotSpecified),
      ScoreLine(p),
      "    Эмоция: " + p.emotion.GetOr(NotSpecified),
      "    Случай: " + p.lastCase.GetOr(NotSpecified),
      "    Причина: " + p.reason.GetOr(NotSpecified),
      "" ]
  }

  /** The blocks of lines one after the other. */
  function Blocks(bs: seq<seq<string>>): (lines: seq<string>)
    ensures (forall j :: 0 <= j < |bs| ==> |bs[j]| == 6) ==> |lines| == 6 * |bs|
  {
    if bs == [] then [] else bs[0] + Blocks(bs[1..])
  }

  /** Block `i` of six-line blocks starts at line `6 * i`. */
  lemma {:induction false} BlocksAt(bs: seq<seq<string>>, i: nat)
    requires forall j :: 0 <= j < |bs| ==> |bs[j]| == 6
    requires i < |bs|
    ensures Blocks(bs)[6 * i .. 6 * i + 6] == bs[i]
    decreases i
  {
    var rest := Blocks(bs[1..]);
    assert Blocks(bs) == bs[0] + rest;
    if i == 0 {
      assert (bs[0] + rest)[..6] == bs[0];
    } else {
      BlocksAt(bs[1..], i - 1);
      assert (bs[0] + rest)[6 * i .. 6 * i + 6] == rest[6 * (i - 1) .. 6 * (i - 1) + 6];
    }
  }

  /** The lines of pains `from + 1`, `from + 2`, ... for `entries`. */
  function PainSection(from: nat, entries: seq<Pain>): (lines: seq<string>)
    ensures |lines| == 6 * |entries|
  {
    Blocks(seq(|entries|, i requires 0 <= i < |entries| => PainLines(from + i + 1, entries[i])))
  }

  /** Block `i` of the section is the six lines of pain `from + i + 1`. */
  lemma PainSectionBlock(from: nat, entries: seq<Pain>, i: nat)
    requires i < |entries|
    ensures PainSection(from, entries)[6 * i .. 6 * i + 6] == PainLines(from + i + 1, entries[i])
  {
    var bs := seq(|entries|, i requires 0 <= i < |entries| => PainLines(from + i + 1, entries[i]));
    BlocksAt(bs, i);
  }

  function PointLines(points: seq<string>): (lines: seq<string>)
    ensures |lines| == |points|
    ensures forall i :: 0 <= i < |points| ==> lines[i] == "  • " + points[i]
  {
    if points == [] then [] else ["  • " + points[0]] + PointLines(points[1..])
  }

  function TopLines(rec: Record): (lines: seq<string>)
    ensures |lines| == 5
  {
    [ "📊 ОТЧЕТ ОБ ИНТЕРВЬЮ",
      "Респондент №: " + OrNotSpecified(rec.respondentId.GetOr("")),
      "Дата: " + OrNotSpecified(rec.date.GetOr("")),
      "",
      "⚡ Точки напряжения:" ]
  }

  function PointLinesOrNone(rec: Record): (lines: seq<string>)
    ensures |lines| == Max(1, |rec.painPoints|)
  {
    if rec.painPoints != [] then PointLines(rec.painPoints) else ["  • Нет"]
  }

  function MiddleLines(rec: Record): (lines: seq<string>)
    ensures |lines| == 8
  {
    [ "",
      "😫 Основные боли:",
      "  " + OrNotSpecified(rec.mainPains),
      "",
      "💢 Самая раздражающая:",
      "  " + OrNotSpecified(rec.mostAnnoying),
      "",
      "🔍 Анализ болей:" ]
  }

  /** Everything above the analysed pains. */
  function HeadLines(rec: Record): (lines: seq<string>)
    ensures |lines| == 13 + Max(1, |rec.painPoints|)
    ensures forall i :: 0 <= i < |rec.painPoints| ==> lines[5 + i] == "  • " + rec.painPoints[i]
  {
    TopLines(rec) + PointLinesOrNone(rec) + MiddleLines(rec)
  }

  /** The insight lines print the stored text as it is: the keys always
      exist, so their "Не указано" default is never used. */
  function TailLines(rec: Record): (lines: seq<string>)
    ensures |lines| == 9
  {
    [ "",
      "✨ Волшебная палочка:",
      "  " + OrNotSpecified(rec.magicWand),
      "",
      "💡 Инсайты:",
      "  Удивило: " + rec.insights.surprise,
      "  Скрытые потребности: " + rec.insights.hiddenNeeds,
      "  Еда: " + rec.insights.foodSignals,
      "  Готовность платить: " + rec.insights.willingnessToPay ]
  }

  function ReportLines(rec: Record): seq<string> {
    HeadLines(rec) + PainLinesOrNone(rec) + TailLines(rec)
  }

  /** `generate_report`: the lines joined by newlines. */
  function Render(rec: Record): string {
    Join(ReportLines(rec), "\n")
  }

  function Max(a: nat, b: nat): nat {
    if a >= b then a else b
  }

  /** Where the first pain's lines start. */
  function PainOffset(rec: Record): nat {
    13 + Max(1, |rec.painPoints|)
  }

  function PainLinesOrNone(rec: Record): (lines: seq<string>)
    ensures |lines| == Max(1, 6 * |rec.painAnalysis|)
  {
    if rec.painAnalysis != [] then PainSection(0, rec.painAnalysis)
    else ["  • Нет проанализированных болей"]
  }

  /** The report has one line per pain point (or a "none" line), six per
      analysed pain (or a "none" line), and a fixed frame of 22 lines that
      opens with the title and the respondent and closes with the
      willingness to pay. */
  lemma ReportFrame(rec: Record)
    ensures var lines := ReportLines(rec);
            && |lines| == 22 + Max(1, |rec.painPoints|) + Max(1, 6 * |rec.painAnalysis|)
            && lines[0] == "📊 ОТЧЕТ ОБ ИНТЕРВЬЮ"
            && lines[1] == "Респондент №: " + OrNotSpecified(rec.respondentId.GetOr(""))
            && lines[|lines| - 1] == "  Готовность платить: " + rec.insights.willingnessToPay
  {
  }

  /** Pain point `i` is listed on line `5 + i`. */
  lemma ReportPointLine(rec: Record, i: nat)
    requires i < |rec.painPoints|
    ensures ReportLines(rec)[5 + i] == "  • " + rec.painPoints[i]
  {
    assert ReportLines(rec)[5 + i] == HeadLines(rec)[5 + i];
  }

  lemma IndexInMiddle(a: seq<string>, b: seq<string>, c: seq<string>, k: nat)
    requires k < |b|
    ensures (a + b + c)[|a| + k] == b[k]
  {
  }

  /** The second line of the block of analysed pain `i` carries its score
      out of 10 and its severity mark. */
  lemma ReportScoreLine(rec: Record, i: nat)
    requires i < |rec.painAnalysis|
    ensures ReportLines(rec)[PainOffset(rec) + 6 * i + 1] == ScoreLine(rec.painAnalysis[i])
  {
    SectionLineInReport(rec, i, 1);
    SectionScoreLine(rec.painAnalysis, i);
  }

  lemma SectionLineInReport(rec: Record, i: nat, j: nat)
    requires i < |rec.painAnalysis| && j < 6
    ensures ReportLines(rec)[PainOffset(rec) + 6 * i + j] == PainSection(0, rec.painAnalysis)[6 * i + j]
  {
    var sec := PainSection(0, rec.painAnalysis);
    var k := 6 * i + j;
    assert PainOffset(rec) + 6 * i + j == |HeadLines(rec)| + k;
    assert PainLinesOrNone(rec) == sec;
    IndexInMiddle(HeadLines(rec), sec, TailLines(rec), k);
  }

  lemma SectionScoreLine(entries: seq<Pain>, i: nat)
    requires i < |entries|
    ensures PainSection(0, entries)[6 * i + 1] == ScoreLine(entries[i])
  {
    var sec := PainSection(0, entries);
    PainSectionBlock(0, entries, i);
    assert sec[6 * i + 1] == sec[6 * i .. 6 * i + 6][1];
  }

  // ---------------------------------------------------------------------
  // Reading the report back

  predicate SingleLine(s: string) {
    '\n' !in s
  }

  /** No text stored in the record contains a line break. */
  predicate SingleLineRecord(rec: Record) {
    && SingleLine(rec.respondentId.GetOr("")) && SingleLine(rec.date.GetOr(""))
    && (forall i :: 0 <= i < |rec.painPoints| ==> SingleLine(rec.painPoints[i]))
    && SingleLine(rec.mainPains) && SingleLine(rec.mostAnnoying) && SingleLine(rec.magicWand)
    && SingleLine(rec.insights.surprise) && SingleLine(rec.insights.hiddenNeeds)
    && SingleLine(rec.insights.foodSignals) && SingleLine(rec.insights.willingnessToPay)
    && (forall i :: 0 <= i < |rec.painAnalysis| ==> SingleLinePain(rec.painAnalysis[i]))
  }

  predicate SingleLinePain(p: Pain) {
    && SingleLine(p.name.GetOr("")) && SingleLine(p.emotion.GetOr(""))
    && SingleLine(p.lastCase.GetOr("")) && SingleLine(p.reason.GetOr(""))
  }

  predicate AllSingleLine(lines: seq<string>) {
    forall i :: 0 <= i < |lines| ==> SingleLine(lines[i])
  }

  lemma SingleLineConcat(a: string, b: string)
    requires SingleLine(a) && SingleLine(b)
    ensures SingleLine(a + b)
  {
  }

  lemma IntToStringSingleLine(n: int)
    ensures SingleLine(IntToString(n))
  {
    var s := IntToString(n);
    if n >= 0 {
      assert AllDigits(s);
    } else {
      assert AllDigits(s[1..]);
    }
  }

  lemma PainTitleSingle(n: nat, p: Pain)
    requires SingleLinePain(p)
    ensures SingleLine("  Боль #" + IntToString(n) + ": " + p.name.GetOr(NotSpecified))
  {
    IntToStringSingleLine(n);
    SingleLineConcat("  Боль #", IntToString(n));
    SingleLineConcat("  Боль #" + IntToString(n), ": ");
    SingleLineConcat("  Боль #" + IntToString(n) + ": ", p.name.GetOr(NotSpecified));
  }

  lemma ScoreLineSingle(p: Pain)
    ensures SingleLine(ScoreLine(p))
  {
    var score := p.score.GetOr(0);
    IntToStringSingleLine(score);
    SingleLineConcat("    Оценка: ", IntToString(score));
    SingleLineConcat("    Оценка: " + IntToString(score), "/10 ");
    SingleLineConcat("    Оценка: " + IntToString(score) + "/10 ", Icon(score));
  }

  lemma PainLinesSingle(n: nat, p: Pain)
    requires SingleLinePain(p)
    ensures AllSingleLine(PainLines(n, p))
  {
    PainTitleSingle(n, p);
    ScoreLineSingle(p);
  }

  lemma {:induction false} BlocksSingle(bs: seq<seq<string>>)
    requires forall j :: 0 <= j < |bs| ==> AllSingleLine(bs[j])
    ensures AllSingleLine(Blocks(bs))
    decreases |bs|
  {
    if bs != [] {
      BlocksSingle(bs[1..]);
      AllSingleLineConcat(bs[0], Blocks(bs[1..]));
    }
  }

  lemma PainSectionSingle(from: nat, entries: seq<Pain>)
    requires forall i :: 0 <= i < |entries| ==> SingleLinePain(entries[i])
    ensures AllSingleLine(PainSection(from, entries))
  {
    var bs := seq(|entries|, i requires 0 <= i < |entries| => PainLines(from + i + 1, entries[i]));
    forall j | 0 <= j < |bs|
      ensures AllSingleLine(bs[j])
    {
      PainLinesSingle(from + j + 1, entries[j]);
    }
    BlocksSingle(bs);
  }

  lemma AllSingleLineConcat(a: seq<string>, b: seq<string>)
    requires AllSingleLine(a) && AllSingleLine(b)
    ensures AllSingleLine(a + b)
  {
    forall i | 0 <= i < |a + b|
      ensures SingleLine((a + b)[i])
    {
      if i >= |a| {
        assert (a + b)[i] == b[i - |a|];
      }
    }
  }

  lemma OrNotSpecifiedSingle(s: string)
    requires SingleLine(s)
    ensures SingleLine(OrNotSpecified(s))
  {
  }

  lemma {:induction false} PointLinesSingle(points: seq<string>)
    requires forall i :: 0 <= i < |points| ==> SingleLine(points[i])
    ensures AllSingleLine(PointLines(points))
  {
    forall i | 0 <= i < |points|
      ensures SingleLine(PointLines(points)[i])
    {
      SingleLineConcat("  • ", points[i]);
    }
  }

  lemma TopSingle(rec: Record)
    requires SingleLineRecord(rec)
    ensures AllSingleLine(TopLines(rec))
  {
    OrNotSpecifiedSingle(rec.respondentId.GetOr(""));
    OrNotSpecifiedSingle(rec.date.GetOr(""));
  }

  lemma MiddleSingle(rec: Record)
    requires SingleLineRecord(rec)
    ensures AllSingleLine(MiddleLines(rec))
  {
    OrNotSpecifiedSingle(rec.mainPains);
    OrNotSpecifiedSingle(rec.mostAnnoying);
  }

  lemma HeadSingle(rec: Record)
    requires SingleLineRecord(rec)
    ensures AllSingleLine(HeadLines(rec))
  {
    TopSingle(rec);
    MiddleSingle(rec);
    if rec.painPoints != [] {
      PointLinesSingle(rec.painPoints);
    }
    AllSingleLineConcat(TopLines(rec), PointLinesOrNone(rec));
    AllSingleLineConcat(TopLines(rec) + PointLinesOrNone(rec), MiddleLines(rec));
  }

  lemma TailSingle(rec: Record)
    requires SingleLineRecord(rec)
    ensures AllSingleLine(TailLines(rec))
  {
    OrNotSpecifiedSingle(rec.magicWand);
  }

  lemma PainLinesOrNoneSingle(rec: Record)
    requires SingleLineRecord(rec)
    ensures AllSingleLine(PainLinesOrNone(rec))
  {
    if rec.painAnalysis != [] {
      PainSectionSingle(0, rec.painAnalysis);
    }
  }

  lemma ReportLinesSingle(rec: Record)
    requires SingleLineRecord(rec)
    ensures AllSingleLine(ReportLines(rec))
  {
    var head, pains, tail := HeadLines(rec), PainLinesOrNone(rec), TailLines(rec);
    HeadSingle(rec);
    PainLinesOrNoneSingle(rec);
    TailSingle(rec);
    AllSingleLineConcat(head, pains);
    AllSingleLineConcat(head + pains, tail);
  }

  /** When no answer contains a line break, splitting the report on line
      breaks gives back exactly its lines. */
  lemma RenderSplitsIntoLines(rec: Record)
    requires SingleLineRecord(rec)
    ensures Split(Render(rec), '\n') == ReportLines(rec)
  {
    ReportLinesSingle(rec);
    assert |ReportLines(rec)| >= 1 by {
      assert |HeadLines(rec)| >= 1;
    }
    SplitJoin(ReportLines(rec), '\n');
  }

  // ---------------------------------------------------------------------
  // Cutting the report into messages

  /** The longest message the bot sends at once. */
  const MaxMessage: nat := 4000

  function Concat(parts: seq<string>): string {
    if parts == [] then [] else parts[0] + Concat(parts[1..])
  }

  /** `[s[i:i+n] for i in range(0, len(s), n)]`. */
  function ChunksOf(s: string, n: nat): (parts: seq<string>)
    requires n > 0
    ensures Concat(parts) == s
    ensures forall i :: 0 <= i < |parts| ==> 1 <= |parts[i]| <= n
    ensures forall i :: 0 <= i < |parts| - 1 ==> |parts[i]| == n
    decreases |s|
  {
    if s == [] then []
    else if |s| <= n then
      assert Concat([s]) == s + Concat([]);
      [s]
    else
      var rest := ChunksOf(s[n..], n);
      assert ([s[..n]] + rest)[1..] == rest;
      assert s[..n] + s[n..] == s;
      [s[..n]] + rest
  }

  /** Cutting is determined: any list of non-empty pieces of at most `n`
      characters, all full but the last, that concatenate to `s` is
      the one `ChunksOf` produces. */
  lemma {:induction false} ChunksOfUnique(s: string, n: nat, parts: seq<string>)
    requires n > 0
    requires Concat(parts) == s
    requires forall i :: 0 <= i < |parts| ==> 1 <= |parts[i]| <= n
    requires forall i :: 0 <= i < |parts| - 1 ==> |parts[i]| == n
    ensures parts == ChunksOf(s, n)
    decreases |parts|
  {
    if parts == [] {
    } else if |parts| == 1 {
      assert Concat(parts) == parts[0] + Concat([]);
      assert s == parts[0];
      assert parts == [s];
    } else {
      var rest := parts[1..];
      assert s == parts[0] + Concat(rest);
      assert Concat(rest) == rest[0] + Concat(rest[1..]);
      assert |s| > n;
      assert s[..n] == parts[0];
      assert s[n..] == Concat(rest);
      ChunksOfUnique(s[n..], n, rest);
    }
  }

  /** The messages the report is sent in: the report itself when it fits,
      otherwise consecutive 4000-character pieces. */
  function SplitReport(report: string): (parts: seq<string>)
    ensures Concat(parts) == report
    ensures forall i :: 0 <= i < |parts| ==> |parts[i]| <= MaxMessage
    ensures |parts| >= 1
    ensures |report| <= MaxMessage ==> parts == [report]
    ensures |report| > MaxMessage ==> parts == ChunksOf(report, MaxMessage)
  {
    if |report| > MaxMessage then ChunksOf(report, MaxMessage)
    else
      assert Concat([report]) == report + Concat([]);
      [report]
  }
}
