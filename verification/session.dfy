/** The bot's shared state: the interview record of every user who has
    started one, the pain each user is currently describing, and the list
    of finished interviews. Every command and message is a pure function
    from the old state to the new one. */
module Session {
  import opened Wrappers
  import opened Text
  import opened Interview
  import opened Engine
  import opened Aggregation
  import opened Report
  import Reachability

  /** A chat user, as the transport identifies them. */
  type UserId = int

  /** `interviews` is the module-level dictionary; `drafts` holds, per user,
      the pain kept under `current_pain` in the user's private data. */
  datatype Store = Store(interviews: map<UserId, Record>, drafts: map<UserId, Pain>)

  /** The pain user `u` is describing, if any. */
  function DraftOf(store: Store, u: UserId): (d: Option<Pain>)
    ensures d.Some? <==> u in store.drafts
    ensures d.Some? ==> d.value == store.drafts[u]
  {
    if u in store.drafts then Some(store.drafts[u]) else None
  }

  /** Stores a draft back: a present draft is written, an absent one
      deleted. */
  function PutDraft(drafts: map<UserId, Pain>, u: UserId, d: Option<Pain>): (r: map<UserId, Pain>)
    ensures u in r <==> d.Some?
    ensures d.Some? ==> r[u] == d.value
    ensures r - {u} == drafts - {u}
  {
    if d.Some? then drafts[u := d.value] else drafts - {u}
  }

  /** The user's record, created empty when there is none. */
  function GetUserInterview(interviews: map<UserId, Record>, u: UserId): (r: (map<UserId, Record>, Record))
    ensures u in r.0 && r.0[u] == r.1
    ensures u in interviews ==> r.0 == interviews
    ensures u !in interviews ==> r.1 == FreshRecord()
    ensures r.0 - {u} == interviews - {u}
  {
    if u in interviews then (interviews, interviews[u])
    else (interviews[u := FreshRecord()], FreshRecord())
  }

  /** Looking a record up twice changes nothing more than looking it up
      once, and gives the same record. */
  lemma GetUserInterviewIdempotent(interviews: map<UserId, Record>, u: UserId)
    ensures var (m, rec) := GetUserInterview(interviews, u);
            GetUserInterview(m, u) == (m, rec)
  {
  }

  /** `/start`: whether the user is warned that an interview was already
      under way, and the state with a fresh record for them. The pain
      under construction is left where it is. */
  function StartSession(store: Store, u: UserId): (r: (bool, Store))
    ensures r.0 <==> u in store.interviews
    ensures u in r.1.interviews && r.1.interviews[u] == FreshRecord()
    ensures r.1.interviews - {u} == store.interviews - {u}
    ensures r.1.drafts == store.drafts
  {
    (u in store.interviews, store.(interviews := store.interviews[u := FreshRecord()]))
  }

  /** `/start` puts the user's conversation where the engine begins one:
      at the respondent question with a fresh record, keeping whatever pain
      was under construction. */
  lemma StartBegins(store: Store, u: UserId)
    ensures SessionOf(StartSession(store, u).1, u, RespondentInfo) == Begin(DraftOf(store, u))
  {
  }

  /** `/cancel`: the user's record and draft are discarded. */
  function CancelSession(store: Store, u: UserId): (r: Store)
    ensures u !in r.interviews && u !in r.drafts
    ensures r.interviews - {u} == store.interviews - {u}
    ensures r.drafts - {u} == store.drafts - {u}
  {
    Store(store.interviews - {u}, store.drafts - {u})
  }

  /** After `/cancel`, `/start` gives no warning, a fresh record and no
      leftover pain. Without the cancel, a leftover pain survives `/start`. */
  lemma CancelThenStart(store: Store, u: UserId)
    ensures var (warned, s) := StartSession(CancelSession(store, u), u);
            && !warned && s.interviews[u] == FreshRecord() && DraftOf(s, u) == None
    ensures DraftOf(StartSession(store, u).1, u) == DraftOf(store, u)
  {
  }

  /** The handlers of these stages never look the record up; all others do,
      creating it when missing. */
  predicate LooksUpRecord(stage: Stage) {
    !(stage == Start || stage == PainCase || stage == PainReason || stage == PainEmotion)
  }

  /** What handling one message leaves behind: the new state, the list of
      finished interviews, the stage the conversation is at (`Start` once it
      has ended) and the report messages sent on completion. */
  datatype Reply = Reply(store: Store, rows: seq<Row>, stage: Stage, messages: seq<string>)

  /** The record a handler at `stage` works on. */
  function RecordFor(store: Store, u: UserId): Record {
    GetUserInterview(store.interviews, u).1
  }

  /** Writes a handler's outcome for user `u` back into the state. A
      conversation that goes on stores the new record (when the handler
      looked it up) and draft; one that failed stores them and ends; one
      that completed saves a row, sends the report and forgets the user. */
  function Apply(store: Store, rows: seq<Row>, u: UserId, writesRecord: bool,
                 o: Outcome, capturedAt: string): (r: Reply)
    ensures r.store.interviews - {u} == store.interviews - {u}
    ensures r.store.drafts - {u} == store.drafts - {u}
    ensures o.Next? ==> r.stage == o.stage && DraftOf(r.store, u) == o.draft && r.rows == rows
    ensures o.Next? && writesRecord ==> u in r.store.interviews && r.store.interviews[u] == o.rec
    ensures o.Next? && !writesRecord ==> r.store.interviews == store.interviews
    ensures o.Aborted? ==>
              && r.stage == Start && r.rows == rows
              && u in r.store.interviews && r.store.interviews[u] == o.rec
              && DraftOf(r.store, u) == o.draft
    ensures o.Finished? ==>
              && r.stage == Start
              && u !in r.store.interviews && u !in r.store.drafts
              && |r.rows| == |rows| + 1 && r.rows[..|rows|] == rows
              && Concat(r.messages) == Render(o.rec)
    ensures r.messages != [] ==> o.Finished?
  {
    match o
    case Next(stage', rec', draft') =>
      var interviews' := if writesRecord then store.interviews[u := rec'] else store.interviews;
      Reply(Store(interviews', PutDraft(store.drafts, u, draft')), rows, stage', [])
    case Aborted(rec', draft') =>
      Reply(Store(store.interviews[u := rec'], PutDraft(store.drafts, u, draft')), rows, Start, [])
    case Finished(rec') =>
      Reply(CancelSession(store, u), Save(rows, rec', capturedAt), Start, SplitReport(Render(rec')))
  }

  /** A text message from user `u` while their conversation is at `stage`.
      `now` is the clock reading the respondent stage records as the
      interview date, `capturedAt` the one the saved row is stamped with.
      With no conversation going on, text is not handled. */
  function HandleText(store: Store, rows: seq<Row>, u: UserId, stage: Stage,
                      input: string, now: string, capturedAt: string): (r: Reply)
    ensures r.store.interviews - {u} == store.interviews - {u}
    ensures r.store.drafts - {u} == store.drafts - {u}
    ensures stage == Start ==> r == Reply(store, rows, Start, [])
    ensures r.rows != rows ==> stage == InsightsPay
    ensures r.messages != [] ==> stage == InsightsPay
  {
    if stage == Start then Reply(store, rows, Start, [])
    else
      var o := Step(stage, RecordFor(store, u), DraftOf(store, u), input, now);
      StepFinishesOnlyAtLastQuestion(stage, RecordFor(store, u), DraftOf(store, u), input, now);
      Apply(store, rows, u, LooksUpRecord(stage), o, capturedAt)
  }

  /** The pain-detail stages only touch the draft: the record is neither
      read nor created. */
  lemma DetailStagesLeaveRecords(store: Store, rows: seq<Row>, u: UserId, stage: Stage,
                                 input: string, now: string, capturedAt: string)
    requires stage == PainCase || stage == PainReason || stage == PainEmotion
    ensures var r := HandleText(store, rows, u, stage, input, now, capturedAt);
            && r.store.interviews == store.interviews
            && r.rows == rows
            && u in r.store.drafts
  {
  }

  /** A message at a stage that reads the record creates an empty one first
      when the user has none (after a restart of the conversation without
      `/start`, for instance). */
  lemma MissingRecordCreated(store: Store, rows: seq<Row>, u: UserId,
                             input: string, now: string, capturedAt: string)
    requires u !in store.interviews
    ensures var r := HandleText(store, rows, u, RespondentInfo, input, now, capturedAt);
            && u in r.store.interviews
            && r.store.interviews[u] == FreshRecord().(respondentId := Some(Strip(input)), date := Some(now))
            && r.stage == DayMap
  {
  }

  /** Completing the last question saves one row for the interview, sends
      the report in pieces that put it back together, and discards the
      user's record and draft. */
  lemma CompletionDiscardsSession(store: Store, rows: seq<Row>, u: UserId,
                                  input: string, now: string, capturedAt: string)
    ensures var r := HandleText(store, rows, u, InsightsPay, input, now, capturedAt);
            var rec := RecordFor(store, u).(insights := RecordFor(store, u).insights.(willingnessToPay := Strip(input)));
            && u !in r.store.interviews && u !in r.store.drafts
            && r.stage == Start
            && r.rows == rows + [Flatten(rec, capturedAt)]
            && Concat(r.messages) == Render(rec)
            && forall i :: 0 <= i < |r.messages| ==> |r.messages[i]| <= MaxMessage
  {
  }

  /** The state of user `u`'s conversation as the engine sees it. */
  function SessionOf(store: Store, u: UserId, stage: Stage): (o: Outcome)
    ensures o.Next? && o.stage == stage
  {
    Next(stage, RecordFor(store, u), DraftOf(store, u))
  }

  /** Handling a message through the store is stepping the engine on the
      user's session: the store afterwards holds exactly the engine's new
      record and draft, as long as the conversation goes on. */
  lemma HandleTextIsStep(store: Store, rows: seq<Row>, u: UserId, stage: Stage,
                         input: string, now: string, capturedAt: string)
    requires stage != Start
    ensures var o := Step(stage, RecordFor(store, u), DraftOf(store, u), input, now);
            var r := HandleText(store, rows, u, stage, input, now, capturedAt);
            o.Next? ==> SessionOf(r.store, u, r.stage) == o
  {
    var rec := RecordFor(store, u);
    var o := Step(stage, rec, DraftOf(store, u), input, now);
    if o.Next? && !LooksUpRecord(stage) {
      assert o.rec == rec;
    }
  }

  /** A session started with `/start` never reaches a failing handler, and
      every stored pain carries all five keys and a score from 1 to 10. */
  lemma StoredSessionsStayWellFormed(store: Store, rows: seq<Row>, u: UserId, stage: Stage,
                                      input: string, now: string, capturedAt: string)
    requires stage != Start && u in store.interviews
    requires Reachability.Inv(stage, store.interviews[u], DraftOf(store, u))
    ensures var r := HandleText(store, rows, u, stage, input, now, capturedAt);
            && (r.stage == Start ==> stage == InsightsPay)
            && (r.stage != Start ==>
                  && u in r.store.interviews
                  && Reachability.Inv(r.stage, r.store.interviews[u], DraftOf(r.store, u)))
  {
    Reachability.StepKeepsInv(stage, store.interviews[u], DraftOf(store, u), input, now);
    HandleTextIsStep(store, rows, u, stage, input, now, capturedAt);
  }
}
