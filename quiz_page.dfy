/**
 * The quiz-taking page of src/pages/Quiz.tsx: the quiz is fetched once, then
 * the user answers one question at a time; an answer locks, scores if it is
 * the correct one, and "Next" moves on or finishes the quiz.
 */
module QuizPage {
  import opened Replies

  datatype Question = Question(id: string, text: string, options: seq<string>, correctAnswer: string)

  datatype QuizData = QuizData(id: string, title: string, questions: seq<Question>)

  /** The state fields that the two handlers update. */
  datatype Progress = Progress(
    index: nat,
    selected: Option<string>,
    isCorrect: Option<bool>,
    score: nat,
    finished: bool)

  const Start := Progress(0, None, None, 0, false)

  const FetchFailed := "Failed to fetch quiz data."
  const NextLabel := "Next Question"
  const FinishLabel := "Finish Quiz"

  /** The answer is locked when the selected answer is truthy. */
  predicate Locked(p: Progress)
  {
    Truthy(p.selected)
  }

  /** `handleAnswerSelect(answer)`. */
  function Select(questions: seq<Question>, p: Progress, answer: string): (r: Progress)
    requires p.index < |questions|
    ensures Locked(p) ==> r == p
    ensures !Locked(p) ==>
      r.selected == Some(answer) && r.isCorrect == Some(answer == questions[p.index].correctAnswer)
    ensures r.index == p.index && r.finished == p.finished
    ensures p.score <= r.score <= p.score + 1
    ensures r.score == p.score + 1 <==> !Locked(p) && answer == questions[p.index].correctAnswer
  {
    if Locked(p) then p
    else
      var correct := answer == questions[p.index].correctAnswer;
      p.(selected := Some(answer), isCorrect := Some(correct), score := if correct then p.score + 1 else p.score)
  }

  /** `handleNextQuestion()`. */
  function Next(questions: seq<Question>, p: Progress): (r: Progress)
    ensures p.index + 1 < |questions| ==> r == p.(index := p.index + 1, selected := None, isCorrect := None)
    ensures p.index + 1 >= |questions| ==> r == p.(finished := true)
    ensures r.score == p.score
  {
    if p.index < |questions| - 1 then p.(index := p.index + 1, selected := None, isCorrect := None)
    else p.(finished := true)
  }

  /** The label of the Next button. */
  function NextButtonLabel(questions: seq<Question>, p: Progress): string
  {
    if p.index < |questions| - 1 then NextLabel else FinishLabel
  }

  /** The button reads "Finish Quiz" exactly on the last question, and pressing it there finishes the quiz. */
  lemma FinishLabelOnLastQuestion(questions: seq<Question>, p: Progress)
    requires p.index < |questions|
    ensures NextButtonLabel(questions, p) == FinishLabel <==> p.index == |questions| - 1
    ensures p.index < |questions| - 1 ==> NextButtonLabel(questions, p) == NextLabel
    ensures !p.finished ==> (NextButtonLabel(questions, p) == FinishLabel <==> Next(questions, p).finished)
  {
  }

  /** What the user can do on the rendered page. */
  datatype Action = Choose(answer: string) | Advance

  /** The option buttons are shown until the quiz is finished and are disabled
      once an answer is locked; the Next button is shown only with a locked answer. */
  predicate Enabled(questions: seq<Question>, p: Progress, a: Action)
  {
    && !p.finished
    && p.index < |questions|
    && match a
       case Choose(answer) => !Locked(p) && answer in questions[p.index].options
       case Advance => Locked(p)
  }

  /** One user action; an action on a disabled or hidden control changes nothing. */
  function Step(questions: seq<Question>, p: Progress, a: Action): (r: Progress)
    requires p.index < |questions|
    ensures r.index < |questions|
  {
    if !Enabled(questions, p, a) then p
    else match a
      case Choose(answer) => Select(questions, p, answer)
      case Advance => Next(questions, p)
  }

  function Run(questions: seq<Question>, p: Progress, actions: seq<Action>): (r: Progress)
    requires p.index < |questions|
    ensures r.index < |questions|
    decreases |actions|
  {
    if actions == [] then p else Run(questions, Step(questions, p, actions[0]), actions[1..])
  }

  /** No correct answer is the empty string (an empty answer would not lock). */
  predicate NonBlankAnswers(questions: seq<Question>)
  {
    forall i :: 0 <= i < |questions| ==> questions[i].correctAnswer != ""
  }

  /** The invariant the UI gating keeps: the index is in range, at most one
      point per question answered so far, and a finished quiz stands on its
      last question with its answer locked. */
  predicate Consistent(questions: seq<Question>, p: Progress)
  {
    && p.index < |questions|
    && p.score <= p.index + (if Locked(p) then 1 else 0)
    && (p.finished ==> Locked(p) && p.index == |questions| - 1)
  }

  lemma StepKeepsConsistent(questions: seq<Question>, p: Progress, a: Action)
    requires NonBlankAnswers(questions) && Consistent(questions, p)
    ensures Consistent(questions, Step(questions, p, a))
  {
    if Enabled(questions, p, a) {
      match a
      case Choose(answer) =>
        var r := Select(questions, p, answer);
        assert r.score == p.score + 1 ==> answer == questions[p.index].correctAnswer;
      case Advance =>
    }
  }

  lemma {:induction false} RunKeepsConsistent(questions: seq<Question>, p: Progress, actions: seq<Action>)
    requires NonBlankAnswers(questions) && Consistent(questions, p)
    ensures Consistent(questions, Run(questions, p, actions))
    decreases |actions|
  {
    if actions != [] {
      StepKeepsConsistent(questions, p, actions[0]);
      RunKeepsConsistent(questions, Step(questions, p, actions[0]), actions[1..]);
    }
  }

  /** Whatever the user does, the displayed "score / total" never exceeds the total. */
  lemma ScoreNeverExceedsTotal(questions: seq<Question>, actions: seq<Action>)
    requires |questions| > 0 && NonBlankAnswers(questions)
    ensures Run(questions, Start, actions).score <= |questions|
    ensures Run(questions, Start, actions).index < |questions|
  {
    RunKeepsConsistent(questions, Start, actions);
  }

  /** Without the non-blank hypothesis the bound fails: an empty correct answer
      does not lock, so choosing it twice scores twice on a one-question quiz. */
  lemma BlankAnswerScoresTwice()
    ensures var qs := [Question("q", "?", [""], "")];
      Run(qs, Start, [Choose(""), Choose("")]).score == 2
  {
    var qs := [Question("q", "?", [""], "")];
    var p1 := Step(qs, Start, Choose(""));
    assert p1.score == 1 && !Locked(p1);
    assert [Choose(""), Choose("")][1..] == [Choose("")];
  }

  /** Answer the question, then press Next, for each answer in turn. */
  function Script(answers: seq<string>): seq<Action>
  {
    if answers == [] then [] else [Choose(answers[0]), Advance] + Script(answers[1..])
  }

  /** The number of answers from position k on that are correct. */
  function CorrectFrom(questions: seq<Question>, answers: seq<string>, k: nat): nat
    requires |answers| == |questions| && k <= |questions|
    decreases |questions| - k
  {
    if k == |questions| then 0
    else (if answers[k] == questions[k].correctAnswer then 1 else 0) + CorrectFrom(questions, answers, k + 1)
  }

  /** Each answer is a non-empty option of its question. */
  predicate Playable(questions: seq<Question>, answers: seq<string>)
  {
    && |answers| == |questions|
    && forall i :: 0 <= i < |answers| ==> answers[i] != "" && answers[i] in questions[i].options
  }

  lemma {:induction false} ScriptFrom(questions: seq<Question>, answers: seq<string>, k: nat, score: nat)
    requires Playable(questions, answers) && k < |questions|
    ensures var r := Run(questions, Progress(k, None, None, score, false), Script(answers[k..]));
      r.finished && r.index == |questions| - 1 && r.score == score + CorrectFrom(questions, answers, k)
    decreases |questions| - k
  {
    var p := Progress(k, None, None, score, false);
    var p1 := Step(questions, p, Choose(answers[k]));
    var p2 := Step(questions, p1, Advance);
    var rest := Script(answers[k + 1..]);
    assert answers[k..][1..] == answers[k + 1..];
    assert Script(answers[k..]) == [Choose(answers[k]), Advance] + rest;
    assert ([Choose(answers[k]), Advance] + rest)[1..] == [Advance] + rest;
    assert ([Advance] + rest)[1..] == rest;
    assert Run(questions, p, Script(answers[k..])) == Run(questions, p2, rest);
    var gained := if answers[k] == questions[k].correctAnswer then 1 else 0;
    assert p1.score == score + gained && Locked(p1);
    if k + 1 < |questions| {
      assert p2 == Progress(k + 1, None, None, score + gained, false);
      ScriptFrom(questions, answers, k + 1, score + gained);
    } else {
      assert p2.finished && p2.index == k && p2.score == score + gained;
      assert answers[k + 1..] == [];
      assert rest == [];
    }
  }

  /** Answering every question and pressing Next after each reaches the
      finished state, with a score equal to the number of correct answers. */
  lemma AnsweringAllFinishes(questions: seq<Question>, answers: seq<string>)
    requires |questions| > 0 && Playable(questions, answers)
    ensures var r := Run(questions, Start, Script(answers));
      r.finished && r.score == CorrectFrom(questions, answers, 0)
  {
    assert answers[0..] == answers;
    ScriptFrom(questions, answers, 0, 0);
  }

  /** The one-question example: the right answer scores 1 of 1, the wrong one 0 of 1. */
  lemma OneQuestionExample()
    ensures var qs := [Question("1", "2+2?", ["3", "4"], "4")];
      && Run(qs, Start, [Choose("4"), Advance]) == Progress(0, Some("4"), Some(true), 1, true)
      && Run(qs, Start, [Choose("3"), Advance]) == Progress(0, Some("3"), Some(false), 0, true)
  {
    var qs := [Question("1", "2+2?", ["3", "4"], "4")];
    assert [Choose("4"), Advance][1..] == [Advance];
    assert [Choose("3"), Advance][1..] == [Advance];
  }

  /** What the page shows, in the order its render checks. */
  datatype Screen =
    | Spinner
    | ErrorAlert(message: string)
    | QuizNotFound
    | Asking(position: nat, total: nat, nextButton: Option<string>)
    | Completed(score: nat, total: nat)

  class QuizSession {
    var quiz: Option<QuizData>
    var loading: bool
    var error: Option<string>
    var index: nat
    var selected: Option<string>
    var isCorrect: Option<bool>
    var score: nat
    var finished: bool

    function Snapshot(): Progress
      reads this
    {
      Progress(index, selected, isCorrect, score, finished)
    }

    constructor ()
      ensures quiz == None && loading && error == None
      ensures Snapshot() == Start
    {
      quiz, loading, error := None, true, None;
      index, selected, isCorrect, score, finished := 0, None, None, 0, false;
    }

    /** The fetch effect for route parameter `id` and bearer `token`; `reply` is
        the answer of the quiz endpoint. Without both, nothing is requested and
        the page keeps loading. */
    method FetchQuiz(id: Option<string>, token: Option<string>, reply: Reply<QuizData>) returns (requested: bool)
      modifies this
      ensures requested <==> Truthy(id) && Truthy(token)
      ensures !requested ==> quiz == old(quiz) && loading == old(loading) && error == old(error)
      ensures requested ==> !loading
      ensures requested && reply.Ok? ==> quiz == Some(reply.payload) && error == old(error)
      ensures requested && reply.Rejected? ==> quiz == old(quiz) && error == Some(FetchFailed)
      ensures requested && reply.Thrown? ==> quiz == old(quiz) && error == Some(reply.message)
      ensures Snapshot() == old(Snapshot())
    {
      requested := Truthy(id) && Truthy(token);
      if requested {
        match reply {
          case Ok(data) => quiz := Some(data);
          case Rejected(_) => error := Some(FetchFailed);
          case Thrown(message) => error := Some(message);
        }
        loading := false;
      }
    }

    method HandleAnswerSelect(answer: string)
      requires quiz.Some? && index < |quiz.value.questions|
      modifies this
      ensures quiz == old(quiz) && loading == old(loading) && error == old(error)
      ensures Snapshot() == Select(quiz.value.questions, old(Snapshot()), answer)
    {
      if Truthy(selected) {
        return;
      }
      selected := Some(answer);
      var correct := answer == quiz.value.questions[index].correctAnswer;
      isCorrect := Some(correct);
      if correct {
        score := score + 1;
      }
    }

    method HandleNextQuestion()
      requires quiz.Some?
      modifies this
      ensures quiz == old(quiz) && loading == old(loading) && error == old(error)
      ensures Snapshot() == Next(quiz.value.questions, old(Snapshot()))
    {
      if index < |quiz.value.questions| - 1 {
        index := index + 1;
        selected := None;
        isCorrect := None;
      } else {
        finished := true;
      }
    }

    function Screen(): (s: Screen)
      reads this
      ensures s.Asking? ==> (s.nextButton.Some? <==> Locked(Snapshot()))
      ensures s.Asking? ==> quiz.Some? && !finished && s.total == |quiz.value.questions|
      ensures s.Asking? && s.nextButton.Some? ==>
        s.nextButton.value == NextButtonLabel(quiz.value.questions, Snapshot())
    {
      if loading then Spinner
      else if Truthy(error) then ErrorAlert(error.value)
      else if quiz.None? then QuizNotFound
      else if finished then Completed(score, |quiz.value.questions|)
      else
        var button := if Locked(Snapshot()) then Some(NextButtonLabel(quiz.value.questions, Snapshot())) else None;
        Asking(index + 1, |quiz.value.questions|, button)
    }
  }
}
