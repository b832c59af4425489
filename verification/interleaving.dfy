/** Two conversations of one user at once. The conversation handler keeps a
    stage per chat and user, but the record and the pain under construction
    are kept per user only. So a user talking to the bot in two chats drives
    two stages over one shared record and draft: each call below names the
    stage of the chat the message arrives in. */
module Interleaving {
  import opened Wrappers
  import opened Text
  import opened Interview
  import opened Engine
  import opened Aggregation
  import opened Session

  /** Chat A names the first pain; chat B, also at the name question,
      answers with an advance word. B sees a most annoying pain but no
      stored one, and synthesises a zero-score entry for it. */
  lemma SecondChatSynthesisesZeroScore(store: Store, rows: seq<Row>, u: UserId,
                                       name: string, advance: string, now: string, capturedAt: string)
    requires u in store.interviews
    requires store.interviews[u].painAnalysis == [] && store.interviews[u].mostAnnoying == ""
    requires Strip(name) != "" && !IsAdvance(Strip(name)) && IsAdvance(Strip(advance))
    ensures var a := HandleText(store, rows, u, PainName, name, now, capturedAt);
            var b := HandleText(a.store, a.rows, u, PainName, advance, now, capturedAt);
            && a.stage == PainCase && b.stage == MagicWand
            && u in b.store.interviews
            && b.store.interviews[u].painAnalysis == [NewPain(Strip(name), 0)]
  {
  }

  /** Chat B completes the interview, which deletes the user's record and
      draft. Chat A was at the case question: it rebuilds the draft from
      `{}`, which has no name, so its valid score commits a nameless entry
      and the conversation fails without saving anything. */
  lemma CompletionInOtherChatAborts(store: Store, rows: seq<Row>, u: UserId, last: string,
                                    lastCase: string, reason: string, emotion: string, score: string,
                                    now: string, capturedAt: string)
    requires Strip(emotion) != "" && Strip(emotion) != OtherToken && ParseScore(Strip(score)).Some?
    ensures var b := HandleText(store, rows, u, InsightsPay, last, now, capturedAt);
            var a1 := HandleText(b.store, b.rows, u, PainCase, lastCase, now, capturedAt);
            var a2 := HandleText(a1.store, a1.rows, u, PainReason, reason, now, capturedAt);
            var a3 := HandleText(a2.store, a2.rows, u, PainEmotion, emotion, now, capturedAt);
            var a4 := HandleText(a3.store, a3.rows, u, PainScore, score, now, capturedAt);
            && |b.rows| == |rows| + 1
            && a3.stage == PainScore
            && a4.stage == Start && a4.rows == b.rows
            && u in a4.store.interviews
            && a4.store.interviews[u].painAnalysis
                 == [Pain(None, Some(Strip(lastCase)), Some(Strip(reason)), Some(Strip(emotion)), ParseScore(Strip(score)))]
  {
    var b := HandleText(store, rows, u, InsightsPay, last, now, capturedAt);
    CompletionDiscardsSession(store, rows, u, last, now, capturedAt);
    assert DraftOf(b.store, u) == None;
    DetailsFromNothing(b.store, b.rows, u, lastCase, reason, emotion, now, capturedAt);
    var a1 := HandleText(b.store, b.rows, u, PainCase, lastCase, now, capturedAt);
    var a2 := HandleText(a1.store, a1.rows, u, PainReason, reason, now, capturedAt);
    var a3 := HandleText(a2.store, a2.rows, u, PainEmotion, emotion, now, capturedAt);
    var d := Pain(None, Some(Strip(lastCase)), Some(Strip(reason)), Some(Strip(emotion)), None);
    NamelessScoreAborts(a3.store, a3.rows, u, d, score, now, capturedAt);
  }

  /** The case, reason and emotion answers given with no draft: the draft
      is rebuilt from `{}` and holds the three answers but no name. */
  lemma DetailsFromNothing(store: Store, rows: seq<Row>, u: UserId,
                           lastCase: string, reason: string, emotion: string, now: string, capturedAt: string)
    requires DraftOf(store, u) == None && Strip(emotion) != OtherToken
    ensures var a1 := HandleText(store, rows, u, PainCase, lastCase, now, capturedAt);
            var a2 := HandleText(a1.store, a1.rows, u, PainReason, reason, now, capturedAt);
            var a3 := HandleText(a2.store, a2.rows, u, PainEmotion, emotion, now, capturedAt);
            && a3.stage == PainScore && a3.rows == rows && a3.store.interviews == store.interviews
            && DraftOf(a3.store, u) == Some(Pain(None, Some(Strip(lastCase)), Some(Strip(reason)), Some(Strip(emotion)), None))
  {
    var a1 := HandleText(store, rows, u, PainCase, lastCase, now, capturedAt);
    var a2 := HandleText(a1.store, a1.rows, u, PainReason, reason, now, capturedAt);
    DetailFromStore(store, rows, u, PainCase, lastCase, now, capturedAt);
    DetailFromStore(a1.store, a1.rows, u, PainReason, reason, now, capturedAt);
    DetailFromStore(a2.store, a2.rows, u, PainEmotion, emotion, now, capturedAt);
  }

  /** A detail answer without a record: the draft (or `{}`) gains the
      answer, and nothing else of the user's changes. */
  lemma DetailFromStore(store: Store, rows: seq<Row>, u: UserId, stage: Stage,
                        input: string, now: string, capturedAt: string)
    requires stage == PainCase || stage == PainReason || stage == PainEmotion
    requires stage == PainEmotion ==> Strip(input) != OtherToken
    ensures var r := HandleText(store, rows, u, stage, input, now, capturedAt);
            var d := DraftOrEmpty(DraftOf(store, u));
            && r.store.interviews == store.interviews && r.rows == rows
            && r.stage == (match stage case PainCase => PainReason case PainReason => PainEmotion case _ => PainScore)
            && DraftOf(r.store, u)
                 == Some(match stage
                         case PainCase => d.(lastCase := Some(Strip(input)))
                         case PainReason => d.(reason := Some(Strip(input)))
                         case _ => d.(emotion := Some(Strip(input))))
  {
  }

  /** A valid score for a draft without a name, with no record: a fresh
      record is created, the nameless entry is committed to it, and the
      conversation fails. */
  lemma NamelessScoreAborts(store: Store, rows: seq<Row>, u: UserId, d: Pain,
                            score: string, now: string, capturedAt: string)
    requires u !in store.interviews && DraftOf(store, u) == Some(d)
    requires d.name.None? && !EmotionMissing(d) && ParseScore(Strip(score)).Some?
    ensures var r := HandleText(store, rows, u, PainScore, score, now, capturedAt);
            && r.stage == Start && r.rows == rows
            && u in r.store.interviews
            && r.store.interviews[u].painAnalysis == [d.(score := ParseScore(Strip(score)))]
  {
  }
}
