/**
 * The client-side quiz session (`QuizInterface`): converting the generated payload into
 * questions, recording answers, navigating, submitting with a local scoring fallback,
 * requesting the mistake analysis, and restarting.
 */
module QuizSession {
  import opened Common
  import QuizGrading

  /** One generated question as it arrives: `answer` is the correct letter, `options` the
      key-to-text object; either may be missing. */
  datatype RawQuestion = RawQuestion(question: string, answer: Option<string>, options: Option<map<string, string>>)

  /** The parsed generation payload: an optional `error` field and an optional `questions` array
      (`None` also stands for a value that is not an array). */
  datatype QuizData = QuizData(error: Option<string>, questions: Option<seq<RawQuestion>>)

  /** How the generation request ended. */
  datatype GenerateOutcome = Received(data: QuizData) | ParseFailure | NetworkFailure

  /** A question as the session shows it: four `X) text` strings and the correct option index. */
  datatype Question = Question(
    question: string, options: seq<string>, correctAnswer: int, explanation: string,
    originalOptions: map<string, string>)

  /** How the remote evaluation ended. */
  datatype EvaluateOutcome = Evaluated(result: QuizGrading.QuizResultResponse) | EvaluationFailed

  /** How the remote mistake analysis ended. */
  datatype AnalysisOutcome = Analysed(analysis: string) | AnalysisFailed

  const AnalysisErrorText := "Analiz sırasında bir hata oluştu. Lütfen tekrar deneyin."

  /** A JavaScript string field in a condition: present and not the empty string. */
  predicate Truthy(s: Option<string>)
  {
    s.Some? && s.value != ""
  }

  /** A property of the options object inside a template literal: a missing one reads `undefined`. */
  function JsRender(options: map<string, string>, key: string): string
  {
    if key in options then options[key] else "undefined"
  }

  /** The answer letter inside a template literal. */
  function LetterText(answer: Option<string>): string
  {
    answer.GetOr("undefined")
  }

  /** The correct option index of an answer letter: A, B, C give 0, 1, 2; anything else 3. */
  function AnswerIndex(answer: Option<string>): (k: int)
    ensures 0 <= k < 4
    ensures k < 3 ==> answer == Some(QuizGrading.Keys[k])
  {
    if answer == Some("A") then 0
    else if answer == Some("B") then 1
    else if answer == Some("C") then 2
    else 3
  }

  /** One generated question in session form. */
  function ConvertQuestion(q: RawQuestion): (r: Question)
    requires q.options.Some?
    ensures |r.options| == 4
    ensures forall k :: 0 <= k < 4 ==>
      && |r.options[k]| >= 3
      && r.options[k][..3] == QuizGrading.Keys[k] + ") "
      && r.options[k][3..] == JsRender(q.options.value, QuizGrading.Keys[k])
    ensures r.question == q.question && r.originalOptions == q.options.value
    ensures r.correctAnswer == AnswerIndex(q.answer)
  {
    var o := q.options.value;
    var letter := LetterText(q.answer);
    Question(
      q.question,
      ["A) " + JsRender(o, "A"), "B) " + JsRender(o, "B"), "C) " + JsRender(o, "C"), "D) " + JsRender(o, "D")],
      AnswerIndex(q.answer),
      "Doğru cevap: " + letter + ") " + JsRender(o, letter),
      o)
  }

  /** `questions.map(...)`: reading the options of a question that has none throws, which
      abandons the whole conversion. */
  function ConvertAll(raw: seq<RawQuestion>): (r: Option<seq<Question>>)
    ensures r.Some? <==> forall i :: 0 <= i < |raw| ==> raw[i].options.Some?
    ensures r.Some? ==> |r.value| == |raw| && forall i :: 0 <= i < |raw| ==> r.value[i] == ConvertQuestion(raw[i])
  {
    if raw == [] then Some([])
    else if raw[0].options.None? then None
    else
      match ConvertAll(raw[1..])
      case None => None
      case Some(rest) => Some([ConvertQuestion(raw[0])] + rest)
  }

  /** The built-in placeholder set that every failed generation falls back to. */
  function DefaultQuestions(): (qs: seq<Question>)
    ensures |qs| == 1 && qs[0].correctAnswer == 0 && |qs[0].options| == 4
  {
    [Question(
      "Doküman yükleme sırasında bir sorun oluştu. Lütfen tekrar deneyin.",
      ["A) Dokümanı yeniden yükle", "B) Sayfayı yenile", "C) Farklı doküman dene", "D) Destek al"],
      0,
      "Lütfen dokümanınızı yeniden yükleyip tekrar deneyin.",
      map["A" := "Dokümanı yeniden yükle", "B" := "Sayfayı yenile", "C" := "Farklı doküman dene", "D" := "Destek al"])]
  }

  /** The questions `generateQuiz` stores for an outcome. */
  function QuestionsFrom(outcome: GenerateOutcome): (qs: seq<Question>)
    ensures || qs == DefaultQuestions()
            || (&& outcome.Received? && !Truthy(outcome.data.error) && outcome.data.questions.Some?
                && ConvertAll(outcome.data.questions.value) == Some(qs))
  {
    match outcome
    case NetworkFailure => DefaultQuestions()
    case ParseFailure => DefaultQuestions()
    case Received(data) =>
      if Truthy(data.error) then DefaultQuestions()
      else if data.questions.None? then DefaultQuestions()
      else ConvertAll(data.questions.value).GetOr(DefaultQuestions())
  }

  /** A well-formed payload yields its questions converted, in number and order. */
  lemma GenerationKeepsQuestions(data: QuizData)
    requires !Truthy(data.error) && data.questions.Some?
    requires forall i :: 0 <= i < |data.questions.value| ==> data.questions.value[i].options.Some?
    ensures QuestionsFrom(Received(data)) == ConvertAll(data.questions.value).value
    ensures |QuestionsFrom(Received(data))| == |data.questions.value|
    ensures forall i :: 0 <= i < |data.questions.value| ==>
      QuestionsFrom(Received(data))[i] == ConvertQuestion(data.questions.value[i])
  {
  }

  /** Each of the four failure paths yields exactly the one placeholder question, answer 0. */
  lemma GenerationFallsBack(outcome: GenerateOutcome)
    requires || outcome.NetworkFailure? || outcome.ParseFailure?
             || (outcome.Received? && Truthy(outcome.data.error))
             || (outcome.Received? && outcome.data.questions.None?)
             || (outcome.Received? && outcome.data.questions.Some?
                 && exists i :: 0 <= i < |outcome.data.questions.value| && outcome.data.questions.value[i].options.None?)
    ensures QuestionsFrom(outcome) == DefaultQuestions()
    ensures |QuestionsFrom(outcome)| == 1 && QuestionsFrom(outcome)[0].correctAnswer == 0
  {
  }

  /** The questions in the shape `evaluateQuiz` sends them to the server. */
  function ForBackend(qs: seq<Question>): (r: seq<QuizGrading.BackendQuestion>)
    ensures |r| == |qs|
    ensures forall i :: 0 <= i < |qs| ==>
      r[i] == QuizGrading.BackendQuestion(qs[i].question, qs[i].originalOptions, qs[i].correctAnswer)
  {
    seq(|qs|, i requires 0 <= i < |qs| => QuizGrading.BackendQuestion(qs[i].question, qs[i].originalOptions, qs[i].correctAnswer))
  }

  /** The indices among the first `n` whose recorded answer is the correct one. */
  ghost function CorrectIndices(qs: seq<Question>, answers: map<int, int>, n: nat): set<int>
    requires n <= |qs|
  {
    set i | 0 <= i < n && i in answers && answers[i] == qs[i].correctAnswer
  }

  /** The local tally over the first `n` questions, one question at a time. */
  function CorrectCount(qs: seq<Question>, answers: map<int, int>, n: nat): (c: nat)
    requires n <= |qs|
    ensures c <= n
  {
    if n == 0 then 0
    else
      var earlier := CorrectCount(qs, answers, n - 1);
      if n - 1 in answers && answers[n - 1] == qs[n - 1].correctAnswer then earlier + 1 else earlier
  }

  /** The tally counts exactly the correctly answered indices; a missing answer never counts. */
  lemma {:induction false} CorrectCountIsCardinality(qs: seq<Question>, answers: map<int, int>, n: nat)
    requires n <= |qs|
    ensures CorrectCount(qs, answers, n) == |CorrectIndices(qs, answers, n)|
  {
    if n == 0 {
      assert CorrectIndices(qs, answers, 0) == {};
    } else {
      CorrectCountIsCardinality(qs, answers, n - 1);
      var earlier := CorrectIndices(qs, answers, n - 1);
      if n - 1 in answers && answers[n - 1] == qs[n - 1].correctAnswer {
        assert n - 1 !in earlier;
        assert CorrectIndices(qs, answers, n) == earlier + {n - 1};
      } else {
        assert CorrectIndices(qs, answers, n) == earlier;
      }
    }
  }

  /** The `forEach` loop of the local fallback. */
  method CountCorrectAnswers(qs: seq<Question>, answers: map<int, int>) returns (count: int)
    ensures count == |CorrectIndices(qs, answers, |qs|)|
    ensures 0 <= count <= |qs|
  {
    count := 0;
    var index := 0;
    while index < |qs|
      invariant 0 <= index <= |qs|
      invariant count == CorrectCount(qs, answers, index)
    {
      if index in answers && answers[index] == qs[index].correctAnswer {
        count := count + 1;
      }
      index := index + 1;
    }
    CorrectCountIsCardinality(qs, answers, |qs|);
  }

  /** The result the fallback stores when the remote evaluation fails. */
  function LocalResult(qs: seq<Question>, answers: map<int, int>): (r: QuizGrading.QuizResultResponse)
    ensures r.totalQuestions == |qs| && r.wrongAnswersList == []
    ensures 0 <= r.wrongAnswers && r.correctAnswers + r.wrongAnswers == |qs|
    ensures r.correctAnswers == |CorrectIndices(qs, answers, |qs|)|
  {
    CorrectCountIsCardinality(qs, answers, |qs|);
    var c := CorrectCount(qs, answers, |qs|);
    QuizGrading.QuizResultResponse(|qs|, c, |qs| - c, [])
  }

  /** The result `evaluateQuiz` stores for an outcome. */
  function EvaluationResult(outcome: EvaluateOutcome, qs: seq<Question>, answers: map<int, int>): (r: QuizGrading.QuizResultResponse)
    ensures outcome.Evaluated? ==> r == outcome.result
    ensures outcome.EvaluationFailed? ==>
      && r.totalQuestions == |qs| && r.wrongAnswersList == []
      && r.correctAnswers == |CorrectIndices(qs, answers, |qs|)|
      && r.correctAnswers + r.wrongAnswers == |qs|
  {
    match outcome
    case Evaluated(r) => r
    case EvaluationFailed => LocalResult(qs, answers)
  }

  class QuizInterface {
    var isGenerating: bool
    var questions: seq<Question>
    var currentQuestionIndex: int
    var selectedAnswers: map<int, int>
    var showResults: bool
    var quizResult: Option<QuizGrading.QuizResultResponse>
    var isAnalyzing: bool
    var mistakeAnalysis: Option<string>

    /** The question index stays within the questions whenever there are any. */
    predicate Valid()
      reads this
    {
      0 <= currentQuestionIndex && (currentQuestionIndex < |questions| || currentQuestionIndex == 0)
    }

    /** The state on mount, before the generation request returns. */
    constructor ()
      ensures Valid()
      ensures isGenerating && questions == [] && currentQuestionIndex == 0 && selectedAnswers == map[]
      ensures !showResults && quizResult == None && !isAnalyzing && mistakeAnalysis == None
    {
      isGenerating := true;
      questions := [];
      currentQuestionIndex := 0;
      selectedAnswers := map[];
      showResults := false;
      quizResult := None;
      isAnalyzing := false;
      mistakeAnalysis := None;
    }

    /** `generateQuiz`, run once by the mount effect, before any navigation. */
    method GenerateQuiz(outcome: GenerateOutcome)
      requires Valid() && currentQuestionIndex == 0
      modifies this`isGenerating, this`questions
      ensures Valid()
      ensures questions == QuestionsFrom(outcome)
      ensures !isGenerating
    {
      isGenerating := true;
      questions := QuestionsFrom(outcome);
      isGenerating := false;
    }

    /** `handleAnswerSelect`: records the choice for the current question, replacing any earlier one. */
    method HandleAnswerSelect(answerIndex: int)
      modifies this`selectedAnswers
      ensures selectedAnswers.Keys == old(selectedAnswers).Keys + {currentQuestionIndex}
      ensures selectedAnswers[currentQuestionIndex] == answerIndex
      ensures forall j :: j in old(selectedAnswers) && j != currentQuestionIndex ==>
        selectedAnswers[j] == old(selectedAnswers)[j]
    {
      selectedAnswers := selectedAnswers[currentQuestionIndex := answerIndex];
    }

    /** `handleNext`: moves forward while not on the last question; from the last one it submits
        (`sent` is the evaluation request, if one was made). */
    method HandleNext(outcome: EvaluateOutcome) returns (sent: Option<QuizGrading.QuizResultRequest>)
      requires Valid()
      modifies this`currentQuestionIndex, this`quizResult, this`showResults
      ensures Valid()
      ensures old(currentQuestionIndex) < |questions| - 1 ==>
        && sent == None
        && currentQuestionIndex == old(currentQuestionIndex) + 1
        && quizResult == old(quizResult) && showResults == old(showResults)
      ensures old(currentQuestionIndex) >= |questions| - 1 ==>
        && sent == Some(QuizGrading.QuizResultRequest(Some(ForBackend(questions)), Some(selectedAnswers)))
        && currentQuestionIndex == old(currentQuestionIndex)
        && showResults && quizResult == Some(EvaluationResult(outcome, questions, selectedAnswers))
    {
      if currentQuestionIndex < |questions| - 1 {
        currentQuestionIndex := currentQuestionIndex + 1;
        sent := None;
      } else {
        var request := EvaluateQuiz(outcome);
        sent := Some(request);
      }
    }

    /** `handlePrevious`: moves back unless on the first question. */
    method HandlePrevious()
      requires Valid()
      modifies this`currentQuestionIndex
      ensures Valid()
      ensures currentQuestionIndex == if old(currentQuestionIndex) > 0 then old(currentQuestionIndex) - 1 else 0
    {
      if currentQuestionIndex > 0 {
        currentQuestionIndex := currentQuestionIndex - 1;
      }
    }

    /** `evaluateQuiz`: sends the questions in the server's shape with the recorded answers
        (`sent`); stores the remote result, or the local tally when the request fails. */
    method EvaluateQuiz(outcome: EvaluateOutcome) returns (sent: QuizGrading.QuizResultRequest)
      modifies this`quizResult, this`showResults
      ensures sent == QuizGrading.QuizResultRequest(Some(ForBackend(questions)), Some(selectedAnswers))
      ensures showResults && quizResult == Some(EvaluationResult(outcome, questions, selectedAnswers))
    {
      sent := QuizGrading.QuizResultRequest(Some(ForBackend(questions)), Some(selectedAnswers));
      match outcome
      case Evaluated(result) =>
        quizResult := Some(result);
        showResults := true;
      case EvaluationFailed =>
        var correctCount := CountCorrectAnswers(questions, selectedAnswers);
        CorrectCountIsCardinality(questions, selectedAnswers, |questions|);
        quizResult := Some(QuizGrading.QuizResultResponse(
          |questions|, correctCount, |questions| - correctCount, []));
        showResults := true;
    }

    /** `analyzeMistakes`: without a result or without wrong answers no request is made and nothing
        changes; otherwise the wrong list is sent (`sent`) and the remote analysis, or the fixed
        error text when it fails, is stored. */
    method AnalyzeMistakes(outcome: AnalysisOutcome) returns (sent: Option<seq<QuizGrading.WrongAnswer>>)
      modifies this`isAnalyzing, this`mistakeAnalysis
      ensures quizResult.None? || quizResult.value.wrongAnswersList == [] ==>
        sent == None && isAnalyzing == old(isAnalyzing) && mistakeAnalysis == old(mistakeAnalysis)
      ensures quizResult.Some? && quizResult.value.wrongAnswersList != [] ==>
        && sent == Some(quizResult.value.wrongAnswersList)
        && !isAnalyzing
        && mistakeAnalysis == Some(if outcome.Analysed? then outcome.analysis else AnalysisErrorText)
    {
      if quizResult.None? || |quizResult.value.wrongAnswersList| == 0 {
        return None;
      }
      isAnalyzing := true;
      sent := Some(quizResult.value.wrongAnswersList);
      if outcome.Analysed? {
        mistakeAnalysis := Some(outcome.analysis);
      } else {
        mistakeAnalysis := Some(AnalysisErrorText);
      }
      isAnalyzing := false;
    }

    /** `restartQuiz`: back to the first question with nothing answered; the questions stay. */
    method RestartQuiz()
      modifies this`currentQuestionIndex, this`selectedAnswers, this`showResults, this`quizResult, this`mistakeAnalysis
      ensures Valid()
      ensures currentQuestionIndex == 0 && selectedAnswers == map[]
      ensures !showResults && quizResult == None && mistakeAnalysis == None
    {
      currentQuestionIndex := 0;
      selectedAnswers := map[];
      showResults := false;
      quizResult := None;
      mistakeAnalysis := None;
    }
  }
}
