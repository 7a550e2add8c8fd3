/**
 * The server-side quiz evaluator (`QuizResultController`): it lists the wrong answers of a
 * submitted quiz, counts the correct ones, and builds the mistake-analysis prompt.
 */
module QuizGrading {
  import opened Common
  import opened Text

  /** The option keys, at the option indices 0, 1, 2, 3. */
  const Keys: seq<string> := ["A", "B", "C", "D"]

  /** A question as the client sends it: text, the key-to-text option map, the correct option index. */
  datatype BackendQuestion = BackendQuestion(question: string, options: map<string, string>, correctAnswer: int)

  /** The request body; either field may be absent (`null`) in the JSON. */
  datatype QuizResultRequest = QuizResultRequest(questions: Option<seq<BackendQuestion>>, answers: Option<map<int, int>>)

  datatype WrongAnswer = WrongAnswer(questionNumber: int, questionText: string, correctAnswer: string, studentAnswer: string)

  /** The evaluation response; the client reads it with the same field names. */
  datatype QuizResultResponse = QuizResultResponse(
    totalQuestions: int, correctAnswers: int, wrongAnswers: int, wrongAnswersList: seq<WrongAnswer>)

  /** What `/evaluate` answers: 200 with a body, or 500 without one. */
  datatype Evaluation = Evaluated(response: QuizResultResponse) | EvaluationFailed

  datatype Status = Ok200 | Error500

  /** What the chat client gives back for the analysis prompt. */
  datatype ChatReply = Reply(content: string) | ChatFailure

  const NotAnswered := "Not answered"
  const UnknownAnswer := "Unknown answer"
  const Congratulations := "Congratulations! You answered all questions correctly. Excellent performance!"
  const AnalysisError := "An error occurred during analysis. Please try again."
  const Placeholder := "{wrongAnswersText}"

  /** `options.get(key)` written into a Java string: a missing key reads as `null`. */
  function JavaLookup(options: map<string, string>, key: string): string
  {
    if key in options then options[key] else "null"
  }

  /** `getAnswerText`: the option at an index, written as `K) text`. */
  function GetAnswerText(options: map<string, string>, answerIndex: int): (r: string)
    ensures 0 <= answerIndex < 4 ==> |r| >= 3 && r[..3] == Keys[answerIndex] + ") "
    ensures 0 <= answerIndex < 4 ==> r[3..] == JavaLookup(options, Keys[answerIndex])
    ensures !(0 <= answerIndex < 4) ==> r == UnknownAnswer
  {
    if 0 <= answerIndex < |Keys| then
      var key := Keys[answerIndex];
      key + ") " + JavaLookup(options, key)
    else UnknownAnswer
  }

  /** Reads the option index back from an answer text: its leading `K) `, if any. */
  function AnswerIndexOfText(text: string): Option<int>
  {
    if |text| >= 3 && text[1..3] == ") " then
      if text[0] == 'A' then Some(0)
      else if text[0] == 'B' then Some(1)
      else if text[0] == 'C' then Some(2)
      else if text[0] == 'D' then Some(3)
      else None
    else None
  }

  /** The answer text determines the option index it was written for: different indices in
      0..3 never give the same text, and none of them gives "Unknown answer", whatever the
      option texts are. */
  lemma AnswerTextRoundTrip(options: map<string, string>, answerIndex: int)
    ensures AnswerIndexOfText(GetAnswerText(options, answerIndex))
         == if 0 <= answerIndex < 4 then Some(answerIndex) else None
  {
    var r := GetAnswerText(options, answerIndex);
    if 0 <= answerIndex < 4 {
      assert r[0] == r[..3][0] && r[1..3] == r[..3][1..];
    } else {
      assert r == UnknownAnswer && r[1..3][0] == r[1] == 'n';
    }
  }

  /** Question `i` goes into the wrong list: no answer, or one other than the correct index. */
  predicate IsWrong(qs: seq<BackendQuestion>, answers: map<int, int>, i: int)
    requires 0 <= i < |qs|
  {
    i !in answers || answers[i] != qs[i].correctAnswer
  }

  /** The wrong-list entry of question `i`. */
  function EntryFor(qs: seq<BackendQuestion>, answers: map<int, int>, i: int): (w: WrongAnswer)
    requires 0 <= i < |qs|
    ensures w.questionNumber == i + 1 && w.questionText == qs[i].question
    ensures w.studentAnswer == NotAnswered <==> i !in answers
  {
    if i in answers then
      AnswerTextIsNotNotAnswered(qs[i].options, answers[i]);
      WrongAnswer(i + 1, qs[i].question, GetAnswerText(qs[i].options, qs[i].correctAnswer),
        GetAnswerText(qs[i].options, answers[i]))
    else
      WrongAnswer(i + 1, qs[i].question, GetAnswerText(qs[i].options, qs[i].correctAnswer), NotAnswered)
  }

  /** No answer text reads "Not answered", so a missing answer is always told apart. */
  lemma AnswerTextIsNotNotAnswered(options: map<string, string>, k: int)
    ensures GetAnswerText(options, k) != NotAnswered
  {
    var r := GetAnswerText(options, k);
    if 0 <= k < 4 {
      assert |Keys[k]| == 1 && r[..3] == Keys[k] + ") ";
      assert r[1] == r[..3][1] == ')' && NotAnswered[1] == 'o';
    } else {
      assert r == UnknownAnswer && r[0] == 'U' && NotAnswered[0] == 'N';
    }
  }

  /** `w` is the entry of a wrong question among the first `n`. */
  predicate ListedWrong(qs: seq<BackendQuestion>, answers: map<int, int>, n: nat, w: WrongAnswer)
    requires n <= |qs|
  {
    && 1 <= w.questionNumber <= n
    && IsWrong(qs, answers, w.questionNumber - 1)
    && w == EntryFor(qs, answers, w.questionNumber - 1)
  }

  /** `ws` lists only wrong questions among the first `n`, each with its own entry, in question order. */
  predicate WrongListing(qs: seq<BackendQuestion>, answers: map<int, int>, n: nat, ws: seq<WrongAnswer>)
    requires n <= |qs|
  {
    && (forall j :: 0 <= j < |ws| ==> ListedWrong(qs, answers, n, ws[j]))
    && (forall j, k :: 0 <= j < k < |ws| ==> ws[j].questionNumber < ws[k].questionNumber)
  }

  /** A listing of the first `n - 1` questions is still one of the first `n`, and stays one when
      question `n - 1` is wrong and its entry is appended. */
  lemma WrongListingGrows(qs: seq<BackendQuestion>, answers: map<int, int>, n: nat, ws: seq<WrongAnswer>)
    requires 0 < n <= |qs| && WrongListing(qs, answers, n - 1, ws)
    ensures WrongListing(qs, answers, n, ws)
    ensures IsWrong(qs, answers, n - 1) ==> WrongListing(qs, answers, n, ws + [EntryFor(qs, answers, n - 1)])
  {
    assert forall j :: 0 <= j < |ws| ==> ListedWrong(qs, answers, n, ws[j]);
    if IsWrong(qs, answers, n - 1) {
      var e := EntryFor(qs, answers, n - 1);
      var ws' := ws + [e];
      assert forall j :: 0 <= j < |ws| ==> ws'[j] == ws[j];
      assert ListedWrong(qs, answers, n, e) && ws'[|ws|] == e;
    }
  }

  /** The wrong list over the first `n` questions, in question order. */
  function WrongAnswers(qs: seq<BackendQuestion>, answers: map<int, int>, n: nat): (ws: seq<WrongAnswer>)
    requires n <= |qs|
    ensures |ws| <= n
    ensures WrongListing(qs, answers, n, ws)
  {
    if n == 0 then []
    else
      var earlier := WrongAnswers(qs, answers, n - 1);
      WrongListingGrows(qs, answers, n, earlier);
      if IsWrong(qs, answers, n - 1) then earlier + [EntryFor(qs, answers, n - 1)] else earlier
  }

  /** Every wrong question among the first `n` has its entry in the wrong list. */
  lemma {:induction false} WrongAnswersComplete(qs: seq<BackendQuestion>, answers: map<int, int>, n: nat, i: int)
    requires n <= |qs| && 0 <= i < n
    requires IsWrong(qs, answers, i)
    ensures exists j :: 0 <= j < |WrongAnswers(qs, answers, n)| && WrongAnswers(qs, answers, n)[j].questionNumber == i + 1
  {
    var ws := WrongAnswers(qs, answers, n);
    var earlier := WrongAnswers(qs, answers, n - 1);
    if i == n - 1 {
      assert ws == earlier + [EntryFor(qs, answers, i)];
      assert ws[|earlier|].questionNumber == i + 1;
    } else {
      WrongAnswersComplete(qs, answers, n - 1, i);
      var j :| 0 <= j < |earlier| && earlier[j].questionNumber == i + 1;
      if IsWrong(qs, answers, n - 1) {
        assert ws == earlier + [EntryFor(qs, answers, n - 1)];
        assert ws[j] == earlier[j];
      } else {
        assert ws == earlier;
      }
    }
  }

  /** Question `i` is in the wrong list exactly when it is wrong; its entry is numbered `i + 1`. */
  lemma WrongListMembership(qs: seq<BackendQuestion>, answers: map<int, int>, i: int)
    requires 0 <= i < |qs|
    ensures IsWrong(qs, answers, i) <==>
      exists j :: 0 <= j < |WrongAnswers(qs, answers, |qs|)| && WrongAnswers(qs, answers, |qs|)[j].questionNumber == i + 1
  {
    if IsWrong(qs, answers, i) {
      WrongAnswersComplete(qs, answers, |qs|, i);
    }
  }

  /** The number of questions among the first `n` whose answer is the correct index. */
  function CorrectCount(qs: seq<BackendQuestion>, answers: map<int, int>, n: nat): (c: nat)
    requires n <= |qs|
    ensures c <= n
  {
    if n == 0 then 0
    else
      var earlier := CorrectCount(qs, answers, n - 1);
      if n - 1 in answers && answers[n - 1] == qs[n - 1].correctAnswer then earlier + 1 else earlier
  }

  /** Every question is either counted correct or listed wrong, never both. */
  lemma {:induction false} CorrectPlusWrong(qs: seq<BackendQuestion>, answers: map<int, int>, n: nat)
    requires n <= |qs|
    ensures CorrectCount(qs, answers, n) + |WrongAnswers(qs, answers, n)| == n
  {
    if n > 0 {
      CorrectPlusWrong(qs, answers, n - 1);
    }
  }

  /** The response `/evaluate` gives for these questions and answers. */
  function Graded(qs: seq<BackendQuestion>, answers: map<int, int>): (r: QuizResultResponse)
    ensures r.correctAnswers + r.wrongAnswers == r.totalQuestions == |qs|
    ensures r.wrongAnswers == |r.wrongAnswersList|
  {
    CorrectPlusWrong(qs, answers, |qs|);
    var c := CorrectCount(qs, answers, |qs|);
    QuizResultResponse(|qs|, c, |qs| - c, WrongAnswers(qs, answers, |qs|))
  }

  /** `evaluateQuiz`: the loop over the questions that collects the wrong answers; the
      correct count is the question count minus the wrong count. A missing question list,
      or a missing answer map read by the loop, throws and answers 500. */
  method EvaluateQuiz(request: QuizResultRequest) returns (result: Evaluation)
    ensures result.EvaluationFailed? <==>
      request.questions.None? || (request.answers.None? && |request.questions.value| > 0)
    ensures result.Evaluated? ==>
      result.response == Graded(request.questions.value, request.answers.GetOr(map[]))
  {
    if request.questions.None? {
      return EvaluationFailed;
    }
    var questions := request.questions.value;
    if request.answers.None? && |questions| > 0 {
      return EvaluationFailed;
    }
    var answers := if request.answers.Some? then request.answers.value else map[];
    var wrong: seq<WrongAnswer> := [];
    var i := 0;
    while i < |questions|
      invariant 0 <= i <= |questions|
      invariant wrong == WrongAnswers(questions, answers, i)
    {
      var studentAnswer := if i in answers then Some(answers[i]) else None;
      if studentAnswer.None? || studentAnswer.value != questions[i].correctAnswer {
        var w := WrongAnswer(
          i + 1,
          questions[i].question,
          GetAnswerText(questions[i].options, questions[i].correctAnswer),
          if studentAnswer.Some? then GetAnswerText(questions[i].options, studentAnswer.value) else NotAnswered);
        assert w == EntryFor(questions, answers, i);
        wrong := wrong + [w];
      }
      i := i + 1;
    }
    CorrectPlusWrong(questions, answers, |questions|);
    var correctCount := |questions| - |wrong|;
    result := Evaluated(QuizResultResponse(|questions|, correctCount, |wrong|, wrong));
    assert result.response == Graded(questions, answers);
  }

  /** The three prompt lines of one wrong answer, followed by a blank line. */
  function EntryText(w: WrongAnswer): string
  {
    "Question " + DecimalString(w.questionNumber) + ": " + w.questionText + "\n"
      + "Correct Answer: " + w.correctAnswer + "\n"
      + "Student's Answer: " + w.studentAnswer + "\n\n"
  }

  /** The prompt blocks of the entries, one per entry, in list order. */
  function EntryTexts(ws: seq<WrongAnswer>): (texts: seq<string>)
    ensures |texts| == |ws| && forall j :: 0 <= j < |ws| ==> texts[j] == EntryText(ws[j])
  {
    Map(EntryText, ws)
  }

  /** The wrong-answer blocks of the prompt, in list order. */
  function WrongAnswersText(ws: seq<WrongAnswer>): string
  {
    Concat(EntryTexts(ws))
  }

  /** The prompt text of a list is the prompt text of its two halves, one after the other. */
  lemma WrongAnswersTextAppend(a: seq<WrongAnswer>, b: seq<WrongAnswer>)
    ensures WrongAnswersText(a + b) == WrongAnswersText(a) + WrongAnswersText(b)
  {
    MapAppend(EntryText, a, b);
    ConcatAppend(EntryTexts(a), EntryTexts(b));
  }

  /** One more entry adds its block at the end. */
  lemma WrongAnswersTextSnoc(ws: seq<WrongAnswer>, w: WrongAnswer)
    ensures WrongAnswersText(ws + [w]) == WrongAnswersText(ws) + EntryText(w)
  {
    WrongAnswersTextAppend(ws, [w]);
    MapSingleton(EntryText, w);
    ConcatSingleton(EntryText(w));
  }

  /** Java's `String.replace(target, replacement)`: every occurrence, scanning left to right. */
  function ReplaceAll(s: string, target: string, replacement: string): string
    requires |target| > 0
    decreases |s|
  {
    if |s| < |target| then s
    else if s[..|target|] == target then replacement + ReplaceAll(s[|target|..], target, replacement)
    else [s[0]] + ReplaceAll(s[1..], target, replacement)
  }

  /** Text without an opening brace passes through the placeholder substitution unchanged. */
  lemma {:induction false} ReplaceSkipsBraceFree(s: string, rest: string, replacement: string)
    requires '{' !in s
    ensures ReplaceAll(s + rest, Placeholder, replacement) == s + ReplaceAll(rest, Placeholder, replacement)
    decreases |s|
  {
    var t := s + rest;
    if s == [] {
      assert t == rest;
    } else if |t| >= |Placeholder| {
      assert t[..|Placeholder|][0] == s[0];
      assert t[1..] == s[1..] + rest;
      ReplaceSkipsBraceFree(s[1..], rest, replacement);
    }
  }

  /** A template made of brace-free literal text and placeholders becomes the same text with
      every placeholder replaced. */
  lemma {:induction false} ReplaceFillsEveryPlaceholder(segments: seq<string>, replacement: string)
    requires forall i :: 0 <= i < |segments| ==> '{' !in segments[i]
    ensures ReplaceAll(JoinWith(segments, Placeholder), Placeholder, replacement) == JoinWith(segments, replacement)
  {
    if |segments| == 1 {
      ReplaceSkipsBraceFree(segments[0], "", replacement);
      assert segments[0] + "" == segments[0];
    } else if |segments| > 1 {
      var tail := JoinWith(segments[1..], Placeholder);
      ReplaceFillsEveryPlaceholder(segments[1..], replacement);
      var afterFirst := Placeholder + tail;
      assert afterFirst[..|Placeholder|] == Placeholder && afterFirst[|Placeholder|..] == tail;
      ReplaceSkipsBraceFree(segments[0], afterFirst, replacement);
      assert JoinWith(segments, Placeholder) == segments[0] + afterFirst;
    }
  }

  /** The `StringBuilder` loop of `analyzeMistakes`: the entries' blocks appended in list order. */
  method BuildWrongAnswersText(ws: seq<WrongAnswer>) returns (text: string)
    ensures text == WrongAnswersText(ws)
  {
    text := "";
    var i := 0;
    while i < |ws|
      invariant 0 <= i <= |ws|
      invariant text == WrongAnswersText(ws[..i])
    {
      assert ws[..i + 1] == ws[..i] + [ws[i]];
      WrongAnswersTextSnoc(ws[..i], ws[i]);
      text := text + EntryText(ws[i]);
      i := i + 1;
    }
    assert ws[..i] == ws;
  }

  /** `analyzeMistakes`: an absent or empty wrong list gets the congratulation without calling
      the chat client; otherwise the prompt is the template with every placeholder replaced by
      the wrong-answer blocks. `prompt` is what was sent to the chat client. A template that
      cannot be read, or a failing chat call, answers 500 with the fixed error text. */
  method AnalyzeMistakes(wrongAnswers: Option<seq<WrongAnswer>>, template: Option<string>, reply: ChatReply)
    returns (status: Status, analysis: string, prompt: Option<string>)
    ensures (wrongAnswers.None? || wrongAnswers.value == []) ==>
      status == Ok200 && analysis == Congratulations && prompt == None
    ensures wrongAnswers.Some? && wrongAnswers.value != [] ==>
      && prompt == (if template.Some?
                    then Some(ReplaceAll(template.value, Placeholder, WrongAnswersText(wrongAnswers.value)))
                    else None)
      && (status == Ok200 <==> template.Some? && reply.Reply?)
      && analysis == (if status == Ok200 then reply.content else AnalysisError)
  {
    if wrongAnswers.None? || wrongAnswers.value == [] {
      return Ok200, Congratulations, None;
    }
    var text := BuildWrongAnswersText(wrongAnswers.value);
    if template.None? {
      return Error500, AnalysisError, None;
    }
    var p := ReplaceAll(template.value, Placeholder, text);
    prompt := Some(p);
    if reply.ChatFailure? {
      return Error500, AnalysisError, prompt;
    }
    status, analysis := Ok200, reply.content;
  }
}
