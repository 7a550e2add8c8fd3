/**
 * How the client's quiz session and the server's evaluator agree: the same correct count for the
 * same questions and answers, the same letter-to-index mapping, and the same option texts.
 */
module ScoreAgreement {
  import opened Common
  import QuizGrading
  import QuizSession

  /** Over any prefix, the server's count of the questions the client sends equals the client's tally. */
  lemma {:induction false} CountsAgree(qs: seq<QuizSession.Question>, answers: map<int, int>, n: nat)
    requires n <= |qs|
    ensures QuizGrading.CorrectCount(QuizSession.ForBackend(qs), answers, n) == QuizSession.CorrectCount(qs, answers, n)
  {
    if n > 0 {
      CountsAgree(qs, answers, n - 1);
    }
  }

  /** The local fallback reports the same totals as the server would for the same submission;
      only the wrong-answer list is left empty. */
  lemma LocalFallbackMatchesServer(qs: seq<QuizSession.Question>, answers: map<int, int>)
    ensures QuizSession.LocalResult(qs, answers)
         == QuizGrading.Graded(QuizSession.ForBackend(qs), answers).(wrongAnswersList := [])
  {
    CountsAgree(qs, answers, |qs|);
  }

  /** Submitting through the server and falling back locally agree on the score. */
  method EvaluateBothWays(qs: seq<QuizSession.Question>, answers: map<int, int>)
    returns (server: QuizGrading.Evaluation, localCount: int)
    ensures server.Evaluated?
    ensures server.response.correctAnswers == localCount
    ensures server.response.totalQuestions == |qs|
  {
    server := QuizGrading.EvaluateQuiz(QuizGrading.QuizResultRequest(Some(QuizSession.ForBackend(qs)), Some(answers)));
    localCount := QuizSession.CountCorrectAnswers(qs, answers);
    QuizSession.CorrectCountIsCardinality(qs, answers, |qs|);
    CountsAgree(qs, answers, |qs|);
  }

  /** The client turns each key the server writes back into that key's index. */
  lemma AnswerLetterRoundTrip(k: int)
    requires 0 <= k < 4
    ensures QuizSession.AnswerIndex(Some(QuizGrading.Keys[k])) == k
  {
  }

  /** When the options object carries all four keys, each option the client shows is exactly the
      text the server writes for that index. */
  lemma DisplayedOptionIsAnswerText(q: QuizSession.RawQuestion, k: int)
    requires q.options.Some? && forall key :: key in QuizGrading.Keys ==> key in q.options.value
    requires 0 <= k < 4
    ensures QuizSession.ConvertQuestion(q).options[k]
         == QuizGrading.GetAnswerText(QuizSession.ConvertQuestion(q).originalOptions, k)
  {
    var shown := QuizSession.ConvertQuestion(q).options[k];
    var written := QuizGrading.GetAnswerText(q.options.value, k);
    assert QuizGrading.Keys[k] in QuizGrading.Keys;
    assert shown == shown[..3] + shown[3..];
    assert written == written[..3] + written[3..];
  }
}
