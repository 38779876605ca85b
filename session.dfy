/**
 The per-user quiz session: a cursor over the questions and the list of
 recorded option indices, advanced one question at a time and reset on
 restart. The classifier that turns the finished feature vector into a
 career label is a parameter.
 */
module Session {
  import opened Quiz

  /** What pressing "Submit & Next" did. */
  datatype Submission =
    | Recorded(option: nat)  // the answer was appended and the cursor advanced
    | NotAnOption            // the selected label is not an option: the lookup fails
    | QuizOver               // every question is answered; the button is not shown

  /** The result page: the feature vector and the career label it was mapped to. */
  datatype Prediction = Prediction(features: seq<nat>, career: string)

  class QuizSession {
    var questionNumber: nat
    var answers: seq<nat>

    /** One answer per question passed, each an option index, never past the last question. */
    ghost predicate Valid()
      reads this
    {
      |answers| == questionNumber <= |Questions| && ValidAnswers(answers)
    }

    /** A new session starts at the first question with nothing answered. */
    constructor ()
      ensures Valid()
      ensures questionNumber == 0 && answers == []
    {
      questionNumber := 0;
      answers := [];
    }

    /** The question on screen, or None once the result page is shown. */
    method CurrentQuestion() returns (q: Option<string>)
      requires Valid()
      ensures q.Some? <==> questionNumber < |Questions|
      ensures q.Some? ==> q.value == Questions[questionNumber] && |answers| < |Questions|
    {
      if questionNumber < |Questions| {
        q := Some(Questions[questionNumber]);
      } else {
        q := None;
      }
    }

    /**
     "Submit & Next" with the label `choice` selected: record the option's
     index and move to the next question.
     */
    method SubmitAnswer(choice: string) returns (outcome: Submission)
      requires Valid()
      modifies this
      ensures Valid()
      ensures outcome.QuizOver? <==> old(questionNumber) >= |Questions|
      ensures outcome.Recorded? <==> old(questionNumber) < |Questions| && choice in Options
      ensures outcome.Recorded? ==>
        && outcome.option < |Options| && Options[outcome.option] == choice
        && answers == old(answers) + [outcome.option]
        && questionNumber == old(questionNumber) + 1
      ensures !outcome.Recorded? ==>
        answers == old(answers) && questionNumber == old(questionNumber)
    {
      if questionNumber >= |Questions| {
        return QuizOver;
      }
      match OptionIndex(choice) {
        case None =>
          outcome := NotAnOption;
        case Some(i) =>
          answers := answers + [i];
          questionNumber := questionNumber + 1;
          outcome := Recorded(i);
      }
    }

    /** "Restart Quiz": back to the state of a new session, whatever came before. */
    method Restart()
      modifies this
      ensures Valid()
      ensures questionNumber == 0 && answers == []
    {
      questionNumber := 0;
      answers := [];
    }

    /**
     The result page: once every question is answered, the counts [A, B, C, D]
     and the career the classifier assigns to them; None while questions remain.
     */
    method ShowResult(classify: seq<nat> -> string) returns (r: Option<Prediction>)
      requires Valid()
      ensures r.None? <==> questionNumber < |Questions|
      ensures r.Some? ==>
        && |r.value.features| == |Options|
        && (forall i :: 0 <= i < |Options| ==> r.value.features[i] == multiset(answers)[i])
        && Total(r.value.features) == |answers| == |Questions|
        && r.value.career == classify(r.value.features)
    {
      if questionNumber < |Questions| {
        return None;
      }
      var features := FeatureVector(answers);
      FeatureVectorTotal(answers);
      r := Some(Prediction(features, classify(features)));
    }
  }

  /** A full run answering "Yes" to all eight questions ends with the counts [0, 8, 0, 0]. */
  method AllYesScenario(classify: seq<nat> -> string) returns (features: seq<nat>)
    ensures features == [0, 8, 0, 0]
  {
    var s := new QuizSession();
    var k := 0;
    while k < |Questions|
      invariant 0 <= k <= |Questions|
      invariant s.Valid() && s.questionNumber == k && s.answers == seq(k, _ => 1)
    {
      var outcome := s.SubmitAnswer("Yes");
      OptionWeights();
      assert outcome == Recorded(1);
      k := k + 1;
    }
    var q := s.CurrentQuestion();
    assert q == None;
    var r := s.ShowResult(classify);
    AllYesFeatureVector();
    features := r.value.features;
  }
}
