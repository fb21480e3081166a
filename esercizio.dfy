/** The exercise element: an append-only list of answers, one per participant
    (the instructor may answer any number of times), and the question editor. */
module Esercizio {
  import opened Wrappers
  import opened Text
  import opened BoardModel

  /** `hasUserResponded`: some answer is authored by `nickname`. */
  function HasUserResponded(responses: seq<Response>, nickname: string): (r: bool)
    ensures r ==> responses != []
    ensures responses != [] && responses[|responses| - 1].author == nickname ==> r
  {
    exists k :: 0 <= k < |responses| && responses[k].author == nickname
  }

  /** After an answer is appended, exactly the earlier authors and the new
      answer's author have responded. */
  lemma RespondedAfterAnswer(responses: seq<Response>, answer: Response, nickname: string)
    ensures HasUserResponded(responses + [answer], nickname) <==>
      HasUserResponded(responses, nickname) || answer.author == nickname
  {
    var all := responses + [answer];
    if answer.author == nickname {
      assert all[|responses|].author == nickname;
    }
    if HasUserResponded(responses, nickname) {
      var k :| 0 <= k < |responses| && responses[k].author == nickname;
      assert all[k].author == nickname;
    }
    if HasUserResponded(all, nickname) && answer.author != nickname {
      var k :| 0 <= k < |all| && all[k].author == nickname;
      assert k < |responses| && responses[k] == all[k];
    }
  }

  /** What a click on the send button leads to. */
  datatype SubmitOutcome =
    | Ignored                       // blank answer, or interaction not allowed: silent return
    | AlreadyAnswered               // the "already answered" alert
    | Submitted(exercise: Exercise) // the update sent

  /** `handleSubmitResponse`. */
  function SubmitResponse(ex: Exercise, responseText: string, canInteract: bool, isInstructor: bool,
                          nickname: string, timestamp: string): (r: SubmitOutcome)
    ensures r.Ignored? <==> IsBlank(responseText) || !canInteract
    ensures r.AlreadyAnswered? <==>
      !IsBlank(responseText) && canInteract && HasUserResponded(ex.responses, nickname) && !isInstructor
    ensures r.Submitted? ==>
      && r.exercise.question == ex.question
      && |r.exercise.responses| == |ex.responses| + 1
      && r.exercise.responses[..|ex.responses|] == ex.responses
      && r.exercise.responses[|ex.responses|] == Response(nickname, Trim(responseText), timestamp)
      && !IsBlank(r.exercise.responses[|ex.responses|].text)
  {
    if Trim(responseText) == [] || !canInteract then Ignored
    else if HasUserResponded(ex.responses, nickname) && !isInstructor then AlreadyAnswered
    else Submitted(ex.(responses := ex.responses + [Response(nickname, Trim(responseText), timestamp)]))
  }

  /** After a successful submission the author has answered. */
  lemma SubmittedMeansResponded(ex: Exercise, responseText: string, canInteract: bool, isInstructor: bool,
                                nickname: string, timestamp: string)
    ensures var r := SubmitResponse(ex, responseText, canInteract, isInstructor, nickname, timestamp);
      r.Submitted? ==> HasUserResponded(r.exercise.responses, nickname)
  {
    var r := SubmitResponse(ex, responseText, canInteract, isInstructor, nickname, timestamp);
    if r.Submitted? {
      assert r.exercise.responses[|ex.responses|].author == nickname;
    }
  }

  /** A participant who has answered cannot add a second answer. */
  lemma NoSecondAnswer(ex: Exercise, text1: string, text2: string, nickname: string, t1: string, t2: string)
    requires SubmitResponse(ex, text1, true, false, nickname, t1).Submitted?
    ensures !SubmitResponse(SubmitResponse(ex, text1, true, false, nickname, t1).exercise, text2, true, false, nickname, t2).Submitted?
  {
    SubmittedMeansResponded(ex, text1, true, false, nickname, t1);
  }

  /** The number of answers authored by `nickname`. */
  function AnswersBy(responses: seq<Response>, nickname: string): (n: nat)
    ensures n <= |responses|
    ensures n == 0 <==> !HasUserResponded(responses, nickname)
  {
    if responses == [] then 0
    else
      assert forall k :: 1 <= k < |responses| ==> responses[k] == responses[1..][k - 1];
      (if responses[0].author == nickname then 1 else 0) + AnswersBy(responses[1..], nickname)
  }

  lemma {:induction false} AnswersByAppend(responses: seq<Response>, r: Response, nickname: string)
    ensures AnswersBy(responses + [r], nickname) == AnswersBy(responses, nickname) + (if r.author == nickname then 1 else 0)
  {
    if responses == [] {
      assert [] + [r] == [r];
      assert [r][1..] == [];
    } else {
      assert (responses + [r])[1..] == responses[1..] + [r];
      AnswersByAppend(responses[1..], r, nickname);
    }
  }

  /** Submissions by participants keep every participant at no more than one
      answer: the invariant holds of `nickname`'s count for any author. */
  lemma SubmitKeepsOneAnswerPerParticipant(ex: Exercise, responseText: string, canInteract: bool,
                                           submitter: string, timestamp: string, nickname: string)
    requires AnswersBy(ex.responses, nickname) <= 1
    ensures var r := SubmitResponse(ex, responseText, canInteract, false, submitter, timestamp);
      r.Submitted? ==> AnswersBy(r.exercise.responses, nickname) <= 1
  {
    var r := SubmitResponse(ex, responseText, canInteract, false, submitter, timestamp);
    if r.Submitted? {
      assert r.exercise.responses == ex.responses + [Response(submitter, Trim(responseText), timestamp)];
      AnswersByAppend(ex.responses, Response(submitter, Trim(responseText), timestamp), nickname);
    }
  }

  /** `handleSaveQuestion`: a non-blank question is saved trimmed with the
      answers kept; a blank one sends no update. */
  function SaveQuestion(ex: Exercise, draft: string): (r: Option<Exercise>)
    ensures r.Some? <==> !IsBlank(draft)
    ensures r.Some? ==> r.value.question == Trim(draft) && r.value.responses == ex.responses
  {
    if Trim(draft) != [] then Some(ex.(question := Trim(draft))) else None
  }

  /** Saving an already saved question again changes nothing. */
  lemma SaveQuestionIdempotent(ex: Exercise, draft: string)
    requires SaveQuestion(ex, draft).Some?
    ensures SaveQuestion(SaveQuestion(ex, draft).value, SaveQuestion(ex, draft).value.question) == SaveQuestion(ex, draft)
  {
    TrimIdempotent(draft);
  }
}
