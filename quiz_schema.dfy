/** `validate_quiz_structure` of test_api.py: the structural check a generated quiz
    must pass. It only looks at which keys are present, what kind of value
    `questions`, each question, `options` and each option are, how many options a
    question has and how many of them are marked correct. */
module QuizSchema {
  import opened JsonValue

  /** An option whose `isCorrect` is truthy (`if option["isCorrect"]:`). */
  predicate MarkedCorrect(option: Json)
  {
    option.Object? && "isCorrect" in option.fields && Truthy(option.fields["isCorrect"])
  }

  /** How many of `options` are marked correct (the `correct_count` counter). */
  function CorrectCount(options: seq<Json>): (count: nat)
  {
    if options == [] then 0
    else CorrectCount(options[..|options| - 1]) + (if MarkedCorrect(options[|options| - 1]) then 1 else 0)
  }

  predicate ValidOption(option: Json)
  {
    option.Object? && "text" in option.fields && "isCorrect" in option.fields
  }

  predicate ValidQuestion(question: Json)
  {
    && question.Object?
    && "questionNumber" in question.fields
    && "question" in question.fields
    && "options" in question.fields
    && question.fields["options"].Array?
    && |question.fields["options"].items| == 4
    && (forall k :: 0 <= k < 4 ==> ValidOption(question.fields["options"].items[k]))
    && CorrectCount(question.fields["options"].items) == 1
  }

  /** The quiz the source accepts: an object with `quizTitle` (of any type) and a list
      `questions` each of which is valid. An empty list is accepted. */
  predicate ValidQuiz(quiz: Json)
  {
    && quiz.Object?
    && "quizTitle" in quiz.fields
    && "questions" in quiz.fields
    && quiz.fields["questions"].Array?
    && (forall i :: 0 <= i < |quiz.fields["questions"].items| ==>
          ValidQuestion(quiz.fields["questions"].items[i]))
  }

  /** Option `k` is the only one marked correct. */
  ghost predicate OnlyMarked(options: seq<Json>, k: int)
  {
    && 0 <= k < |options| && MarkedCorrect(options[k])
    && forall m :: 0 <= m < |options| && m != k ==> !MarkedCorrect(options[m])
  }

  lemma {:induction false} CountOneHasOnlyMarked(options: seq<Json>)
    requires CorrectCount(options) == 1
    ensures exists k :: OnlyMarked(options, k)
  {
    var n := |options| - 1;
    var init := options[..n];
    assert forall m :: 0 <= m < n ==> init[m] == options[m];
    if MarkedCorrect(options[n]) {
      CorrectCountZero(init);
      assert OnlyMarked(options, n);
    } else {
      CountOneHasOnlyMarked(init);
      var k :| OnlyMarked(init, k);
      assert OnlyMarked(options, k);
    }
  }

  lemma {:induction false} OnlyMarkedCountsOne(options: seq<Json>, k: int)
    requires OnlyMarked(options, k)
    ensures CorrectCount(options) == 1
  {
    var n := |options| - 1;
    var init := options[..n];
    assert forall m :: 0 <= m < n ==> init[m] == options[m];
    if k == n {
      CorrectCountZero(init);
    } else {
      assert OnlyMarked(init, k);
      OnlyMarkedCountsOne(init, k);
    }
  }

  /** Exactly one correct option: the count is 1 exactly when one option is marked
      and every other one is not. */
  lemma CorrectCountOne(options: seq<Json>)
    ensures CorrectCount(options) == 1 <==> exists k :: OnlyMarked(options, k)
  {
    if CorrectCount(options) == 1 {
      CountOneHasOnlyMarked(options);
    }
    if k :| OnlyMarked(options, k) {
      OnlyMarkedCountsOne(options, k);
    }
  }

  /** No correct option: the count is 0 exactly when no option is marked. */
  lemma {:induction false} CorrectCountZero(options: seq<Json>)
    ensures CorrectCount(options) == 0 <==> forall m :: 0 <= m < |options| ==> !MarkedCorrect(options[m])
  {
    if options != [] {
      var init := options[..|options| - 1];
      CorrectCountZero(init);
      assert forall m :: 0 <= m < |init| ==> init[m] == options[m];
    }
  }

  /** `validate_quiz_structure` as the source runs it: a loop over the questions, a
      loop over the required keys, and a loop over the options that counts the
      correct ones, leaving with `false` at the first violation. */
  method ValidateQuizStructure(quiz: Json) returns (ok: bool)
    ensures ok == ValidQuiz(quiz)
  {
    if !quiz.Object? {
      return false;
    }
    if "quizTitle" !in quiz.fields {
      return false;
    }
    if "questions" !in quiz.fields {
      return false;
    }
    if !quiz.fields["questions"].Array? {
      return false;
    }
    var questions := quiz.fields["questions"].items;
    var i := 0;
    while i < |questions|
      invariant 0 <= i <= |questions|
      invariant forall p :: 0 <= p < i ==> ValidQuestion(questions[p])
    {
      var question := questions[i];
      if !question.Object? {
        return false;
      }
      var requiredFields := ["questionNumber", "question", "options"];
      var f := 0;
      while f < |requiredFields|
        invariant 0 <= f <= |requiredFields|
        invariant forall g :: 0 <= g < f ==> requiredFields[g] in question.fields
      {
        if requiredFields[f] !in question.fields {
          return false;
        }
        f := f + 1;
      }
      assert requiredFields[0] in question.fields && requiredFields[1] in question.fields;
      assert requiredFields[2] in question.fields;
      if !question.fields["options"].Array? {
        return false;
      }
      var options := question.fields["options"].items;
      if |options| != 4 {
        return false;
      }
      var correctCount := 0;
      var j := 0;
      while j < |options|
        invariant 0 <= j <= |options|
        invariant forall m :: 0 <= m < j ==> ValidOption(options[m])
        invariant correctCount == CorrectCount(options[..j])
      {
        var option := options[j];
        if !option.Object? {
          return false;
        }
        if "text" !in option.fields || "isCorrect" !in option.fields {
          return false;
        }
        if Truthy(option.fields["isCorrect"]) {
          correctCount := correctCount + 1;
        }
        assert options[..j + 1][..j] == options[..j];
        j := j + 1;
      }
      assert options[..j] == options;
      if correctCount != 1 {
        return false;
      }
      i := i + 1;
    }
    return true;
  }

  /** The type of `quizTitle` is never looked at: replacing its value changes
      nothing. */
  lemma QuizTitleUnchecked(fields: map<string, Json>, title: Json)
    requires "quizTitle" in fields
    ensures ValidQuiz(Object(fields)) == ValidQuiz(Object(fields["quizTitle" := title]))
  {
    assert "questions" != "quizTitle";
  }

  /** An accepted question has four options, exactly one of them marked correct. */
  lemma ValidQuestionHasOneAnswer(question: Json)
    requires ValidQuestion(question)
    ensures var options := question.fields["options"].items;
      |options| == 4 && exists k :: OnlyMarked(options, k)
  {
    CorrectCountOne(question.fields["options"].items);
  }

  /** A quiz with no questions passes. */
  lemma EmptyQuestionsAccepted(title: Json)
    ensures ValidQuiz(Object(map["quizTitle" := title, "questions" := Array([])]))
  {
  }

  /** Correctness is Python truthiness, not `== true`: an option whose `isCorrect` is
      the string "false" is counted as the correct one. */
  lemma StringFlagCountsAsCorrect()
    ensures MarkedCorrect(Object(map["text" := String("A"), "isCorrect" := String("false")]))
  {
  }
}
