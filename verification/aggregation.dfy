/** The aggregation sink: a completed record flattened into one row of the
    shared table, and the statistics computed over all rows. */
module Aggregation {
  import opened Wrappers
  import opened Text
  import opened Interview

  /** At most this many pains get columns in a row. */
  const MaxPains: nat := 10

  /** The five columns of one pain group: name, score, emotion, case,
      reason. A missing key becomes the empty text, or 0 for the score. */
  datatype PainGroup = PainGroup(name: string, score: int, emotion: string, lastCase: string, reason: string)

  /** One row of the table. Pain group `i` (numbered from 1) is
      `pains[i - 1]`; a row has exactly the groups whose keys exist. */
  datatype Row = Row(
    respondent: string,
    date: string,
    dayDescription: string,
    painPoints: string,
    mainPains: string,
    mostAnnoying: string,
    magicWand: string,
    surprise: string,
    hiddenNeeds: string,
    foodSignals: string,
    willingnessToPay: string,
    capturedAt: string,
    pains: seq<PainGroup>)

  function Min(a: nat, b: nat): nat {
    if a <= b then a else b
  }

  function Group(p: Pain): (g: PainGroup)
    ensures g.name == p.name.GetOr("") && g.emotion == p.emotion.GetOr("")
    ensures g.lastCase == p.lastCase.GetOr("") && g.reason == p.reason.GetOr("")
    ensures g.score == p.score.GetOr(0)
  {
    PainGroup(p.name.GetOr(""), p.score.GetOr(0), p.emotion.GetOr(""), p.lastCase.GetOr(""), p.reason.GetOr(""))
  }

  /** Reads a pain group back as a dictionary with every key. */
  function Ungroup(g: PainGroup): Pain {
    Pain(Some(g.name), Some(g.lastCase), Some(g.reason), Some(g.emotion), Some(g.score))
  }

  function Groups(entries: seq<Pain>): (gs: seq<PainGroup>)
    ensures |gs| == |entries|
    ensures forall i :: 0 <= i < |entries| ==> gs[i] == Group(entries[i])
  {
    if entries == [] then [] else [Group(entries[0])] + Groups(entries[1..])
  }

  /** The separator between pain points in their single column. */
  const PointSeparator: string := ", "

  /** Flattens a record, with the capture time the clock gave. */
  function Flatten(rec: Record, capturedAt: string): (row: Row)
    ensures |row.pains| == Min(MaxPains, |rec.painAnalysis|)
    ensures forall i :: 0 <= i < |row.pains| ==> row.pains[i] == Group(rec.painAnalysis[i])
    ensures row.respondent == rec.respondentId.GetOr("") && row.date == rec.date.GetOr("")
    ensures row.mostAnnoying == rec.mostAnnoying && row.capturedAt == capturedAt
    ensures row.dayDescription == rec.dayDescription && row.mainPains == rec.mainPains
    ensures row.magicWand == rec.magicWand
    ensures row.surprise == rec.insights.surprise && row.hiddenNeeds == rec.insights.hiddenNeeds
    ensures row.foodSignals == rec.insights.foodSignals
    ensures row.willingnessToPay == rec.insights.willingnessToPay
    ensures row.painPoints == Join(rec.painPoints, PointSeparator)
    ensures rec.painPoints == [] ==> row.painPoints == ""
    ensures |rec.painPoints| == 1 ==> row.painPoints == rec.painPoints[0]
  {
    var kept := rec.painAnalysis[..Min(MaxPains, |rec.painAnalysis|)];
    Row(rec.respondentId.GetOr(""), rec.date.GetOr(""), rec.dayDescription,
        Join(rec.painPoints, PointSeparator), rec.mainPains, rec.mostAnnoying, rec.magicWand,
        rec.insights.surprise, rec.insights.hiddenNeeds, rec.insights.foodSignals,
        rec.insights.willingnessToPay, capturedAt, Groups(kept))
  }

  /** Flattening loses nothing of a pain that has all its keys, as long as
      it is among the first ten. */
  lemma FlattenKeepsCompletePains(rec: Record, capturedAt: string, i: nat)
    requires i < MaxPains && i < |rec.painAnalysis|
    requires HasAllKeys(rec.painAnalysis[i])
    ensures Ungroup(Flatten(rec, capturedAt).pains[i]) == rec.painAnalysis[i]
  {
  }

  /** Several pain points share one column, separated by a comma. */
  lemma PointsJoined(rec: Record, capturedAt: string)
    requires rec.painPoints == ["queues", "noise", "cold"]
    ensures Flatten(rec, capturedAt).painPoints == "queues, noise, cold"
  {
    var xs := rec.painPoints;
    assert xs[1..] == ["noise", "cold"] && xs[1..][1..] == ["cold"];
    assert Join(xs[1..][1..], PointSeparator) == "cold";
    assert Join(xs[1..], PointSeparator) == "noise" + PointSeparator + "cold";
    assert Join(xs, PointSeparator) == "queues" + PointSeparator + ("noise" + PointSeparator + "cold");
  }

  /** However many pains a record holds, its row has at most ten groups. */
  lemma FlattenCapsGroups(rec: Record, capturedAt: string)
    ensures |Flatten(rec, capturedAt).pains| <= MaxPains
    ensures |rec.painAnalysis| >= MaxPains ==> |Flatten(rec, capturedAt).pains| == MaxPains
  {
  }

  /** `save_to_global_database`: appends exactly one row. */
  function Save(rows: seq<Row>, rec: Record, capturedAt: string): (rows': seq<Row>)
    ensures |rows'| == |rows| + 1
    ensures rows'[..|rows|] == rows
    ensures rows'[|rows|] == Flatten(rec, capturedAt)
  {
    rows + [Flatten(rec, capturedAt)]
  }

  // ---------------------------------------------------------------------
  // Statistics

  /** Groups 1..10 whose score is above zero. */
  function CountScored(gs: seq<PainGroup>): (n: nat)
    ensures n <= |gs|
  {
    if gs == [] then 0 else (if gs[0].score > 0 then 1 else 0) + CountScored(gs[1..])
  }

  /** Groups 1..10 whose score is at least 7. */
  function CountHigh(gs: seq<PainGroup>): (n: nat)
    ensures n <= CountScored(gs)
  {
    if gs == [] then 0 else (if gs[0].score >= 7 then 1 else 0) + CountHigh(gs[1..])
  }

  /** The groups `stats` looks at: numbers 1 to 10. */
  function Examined(row: Row): (gs: seq<PainGroup>)
    ensures |gs| <= MaxPains
  {
    row.pains[..Min(MaxPains, |row.pains|)]
  }

  function TotalScored(rows: seq<Row>): (n: nat)
    ensures n <= MaxPains * |rows|
  {
    if rows == [] then 0 else CountScored(Examined(rows[0])) + TotalScored(rows[1..])
  }

  function TotalHigh(rows: seq<Row>): (n: nat)
    ensures n <= TotalScored(rows)
  {
    if rows == [] then 0 else CountHigh(Examined(rows[0])) + TotalHigh(rows[1..])
  }

  /** What `stats` reports. */
  datatype Summary = Summary(total: nat, firstDate: string, lastDate: string, pains: nat, high: nat)

  /** `stats`: nothing when there are no rows yet. */
  function Stats(rows: seq<Row>): (r: Option<Summary>)
    ensures rows == [] <==> r.None?
    ensures r.Some? ==>
              && r.value.total == |rows|
              && r.value.firstDate == rows[0].date
              && r.value.lastDate == rows[|rows| - 1].date
              && r.value.high <= r.value.pains <= MaxPains * |rows|
  {
    if rows == [] then None
    else Some(Summary(|rows|, rows[0].date, rows[|rows| - 1].date, TotalScored(rows), TotalHigh(rows)))
  }

  lemma {:induction false} CountScoredAppend(a: seq<PainGroup>, b: seq<PainGroup>)
    ensures CountScored(a + b) == CountScored(a) + CountScored(b)
    ensures CountHigh(a + b) == CountHigh(a) + CountHigh(b)
  {
    if a == [] {
      assert a + b == b;
    } else {
      assert (a + b)[1..] == a[1..] + b;
      CountScoredAppend(a[1..], b);
    }
  }

  lemma {:induction false} TotalsAppend(rows: seq<Row>, row: Row)
    ensures TotalScored(rows + [row]) == TotalScored(rows) + CountScored(Examined(row))
    ensures TotalHigh(rows + [row]) == TotalHigh(rows) + CountHigh(Examined(row))
  {
    if rows == [] {
      assert [row][1..] == [];
    } else {
      assert (rows + [row])[1..] == rows[1..] + [row];
      TotalsAppend(rows[1..], row);
    }
  }

  /** Committed pains of a record whose score is above zero, and those at 7
      or more. */
  function ScoredPains(entries: seq<Pain>): (n: nat)
    ensures n <= |entries|
  {
    if entries == [] then 0
    else (if entries[0].score.GetOr(0) > 0 then 1 else 0) + ScoredPains(entries[1..])
  }

  function HighPains(entries: seq<Pain>): (n: nat)
    ensures n <= ScoredPains(entries)
  {
    if entries == [] then 0
    else (if entries[0].score.GetOr(0) >= 7 then 1 else 0) + HighPains(entries[1..])
  }

  lemma {:induction false} GroupsCount(entries: seq<Pain>)
    ensures CountScored(Groups(entries)) == ScoredPains(entries)
    ensures CountHigh(Groups(entries)) == HighPains(entries)
  {
    if entries != [] {
      var gs := Groups(entries);
      assert gs[1..] == Groups(entries[1..]);
      GroupsCount(entries[1..]);
    }
  }

  /** The counts `stats` takes from one row are the record's own counts
      over its first ten pains. */
  lemma RowCounts(rec: Record, capturedAt: string)
    ensures var kept := rec.painAnalysis[..Min(MaxPains, |rec.painAnalysis|)];
            && CountScored(Examined(Flatten(rec, capturedAt))) == ScoredPains(kept)
            && CountHigh(Examined(Flatten(rec, capturedAt))) == HighPains(kept)
  {
    var row := Flatten(rec, capturedAt);
    var kept := rec.painAnalysis[..Min(MaxPains, |rec.painAnalysis|)];
    assert Examined(row) == row.pains;
    assert row.pains == Groups(kept);
    GroupsCount(kept);
  }

  /** Saving an interview adds one respondent, makes its date the last
      one, and adds to the counts exactly its pains among the first ten
      whose score is above zero (and, of those, the ones at 7 or more):
      a synthesised zero-score pain never counts. */
  lemma StatsAfterSave(rows: seq<Row>, rec: Record, capturedAt: string)
    ensures var s := Stats(Save(rows, rec, capturedAt));
            var kept := rec.painAnalysis[..Min(MaxPains, |rec.painAnalysis|)];
            && s.Some?
            && s.value.total == |rows| + 1
            && s.value.lastDate == rec.date.GetOr("")
            && s.value.pains == TotalScored(rows) + ScoredPains(kept)
            && s.value.high == TotalHigh(rows) + HighPains(kept)
  {
    var row := Flatten(rec, capturedAt);
    var kept := rec.painAnalysis[..Min(MaxPains, |rec.painAnalysis|)];
    var rows' := rows + [row];
    assert Save(rows, rec, capturedAt) == rows';
    TotalsAppend(rows, row);
    RowCounts(rec, capturedAt);
    assert Stats(rows') == Some(Summary(|rows'|, rows'[0].date, row.date, TotalScored(rows'), TotalHigh(rows')));
  }
}
