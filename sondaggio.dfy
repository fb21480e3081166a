/** The poll element: voting (single choice replaces, multiple choice toggles),
    the vote tallies shown on each option, and the editor that keeps the
    option list between two and eight entries and validates it on save. */
module Sondaggio {
  import opened Wrappers
  import opened Text
  import opened BoardModel

  const MinOptions: nat := 2
  const MaxOptions: nat := 8

  /** `votes[participantNickname] || []`. */
  function UserVotes(votes: Votes, nickname: string): (r: seq<int>)
    ensures nickname in votes ==> r == votes[nickname]
    ensures nickname !in votes ==> r == []
  {
    if nickname in votes then votes[nickname] else []
  }

  /** `userVotes.filter(v => v !== optionIndex)`. */
  function WithoutChoice(choices: seq<int>, i: int): (r: seq<int>)
    ensures |r| <= |choices|
    ensures forall v :: v in r <==> v in choices && v != i
  {
    if choices == [] then []
    else if choices[0] == i then WithoutChoice(choices[1..], i)
    else [choices[0]] + WithoutChoice(choices[1..], i)
  }

  /** The multiple-choice toggle: drop `i` if it is selected, else append it. */
  function ToggleChoice(choices: seq<int>, i: int): (r: seq<int>)
    ensures (i in r) <==> (i !in choices)
    ensures forall v :: v != i ==> (v in r <==> v in choices)
  {
    if i in choices then WithoutChoice(choices, i) else choices + [i]
  }

  /** Toggling the same option twice restores whether it is selected, and
      leaves every other option's selection as it was. */
  lemma ToggleTwiceRestoresMembership(choices: seq<int>, i: int)
    ensures forall v :: v in ToggleChoice(ToggleChoice(choices, i), i) <==> v in choices
  {
  }

  /** The vote map after `nickname` clicks option `i`. */
  function CastVote(votes: Votes, nickname: string, multipleChoice: bool, i: int): (r: Votes)
    ensures r.Keys == votes.Keys + {nickname}
    ensures forall n :: n in votes && n != nickname ==> r[n] == votes[n]
    ensures !multipleChoice ==> r[nickname] == [i]
    ensures multipleChoice ==> (i in r[nickname] <==> !HasUserVoted(votes, nickname, i))
    ensures multipleChoice ==> forall v :: v != i ==> (v in r[nickname] <==> HasUserVoted(votes, nickname, v))
  {
    var userVotes := UserVotes(votes, nickname);
    votes[nickname := if multipleChoice then ToggleChoice(userVotes, i) else [i]]
  }

  /** `hasUserVoted`: option `i` is in the participant's selection. */
  function HasUserVoted(votes: Votes, nickname: string, i: int): (r: bool)
    ensures r <==> nickname in VotersFor(votes, i)
  {
    i in UserVotes(votes, nickname)
  }

  /** The nicknames whose selection contains option `i`. */
  function VotersFor(votes: Votes, i: int): set<string> {
    set n | n in votes && i in votes[n]
  }

  /** `getVoteCount`: how many participants selected option `i`; never more
      than there are voters, and zero exactly when nobody selected it. */
  function VoteCount(votes: Votes, i: int): (r: nat)
    ensures r <= TotalVotes(votes)
    ensures r == 0 <==> forall n :: n in votes ==> i !in votes[n]
  {
    var s := VotersFor(votes, i);
    assert votes.Keys * s == s;
    assert |votes.Keys - s| == |votes.Keys| - |s|;
    assert s == {} <==> forall n :: n in votes ==> i !in votes[n];
    |s|
  }

  /** `getTotalVotes`: the number of nickname keys, including a key whose
      selection has been toggled down to nothing. */
  function TotalVotes(votes: Votes): (r: nat)
    ensures r == |votes.Keys|
    ensures r == 0 <==> votes == map[]
  {
    assert votes != map[] ==> exists n :: n in votes;
    |votes|
  }

  /** `getVotePercentage`: 0 with no voters, else `Math.round(count / total * 100)`
      written in integer arithmetic (half-way values round up). */
  function VotePercentage(votes: Votes, i: int): (r: nat)
    ensures r <= 100
    ensures TotalVotes(votes) == 0 ==> r == 0
    ensures TotalVotes(votes) > 0 ==>
      var c, t := VoteCount(votes, i), TotalVotes(votes);
      2 * r * t - t <= 200 * c < 2 * r * t + t
  {
    var c, t := VoteCount(votes, i), TotalVotes(votes);
    if t == 0 then 0
    else
      RoundedPercentage(c, t)
  }

  /** The nearest integer to `100 * c / t`, half-way values rounded up. */
  function RoundedPercentage(c: nat, t: nat): (r: nat)
    requires 0 < t && c <= t
    ensures r <= 100
    ensures 2 * r * t - t <= 200 * c < 2 * r * t + t
  {
    RoundingBounds(c, t);
    (200 * c + t) / (2 * t)
  }

  lemma RoundingBounds(c: nat, t: nat)
    requires 0 < t && c <= t
    ensures var r := (200 * c + t) / (2 * t);
      r <= 100 && 2 * r * t - t <= 200 * c < 2 * r * t + t
  {
    var r := (200 * c + t) / (2 * t);
    assert 2 * t * r <= 200 * c + t < 2 * t * (r + 1);
    if r > 100 {
      MulMonotone(2 * t, 101, r);
      assert false;
    }
  }

  lemma MulMonotone(a: nat, b: int, c: int)
    requires b <= c
    ensures a * b <= a * c
  {
  }

  /** A participant who toggles their only choice off keeps a key with an empty
      selection, and that key is still counted in the total. */
  lemma EmptiedSelectionStillCounted(votes: Votes, nickname: string, i: int)
    requires nickname in votes && votes[nickname] == [i]
    ensures var after := CastVote(votes, nickname, true, i);
      after[nickname] == [] && TotalVotes(after) == TotalVotes(votes)
  {
    var after := CastVote(votes, nickname, true, i);
    assert after.Keys == votes.Keys;
    assert after[nickname] == WithoutChoice([i], i) == WithoutChoice([], i);
  }

  /** Three voters {A: [0], B: [0, 1], C: [1]}: options 0 and 1 each have two
      votes out of three, i.e. 67 percent. */
  lemma ThreeVoterExample()
    ensures var votes := map["A" := [0], "B" := [0, 1], "C" := [1]];
      VoteCount(votes, 0) == 2 && VoteCount(votes, 1) == 2 && TotalVotes(votes) == 3
      && VotePercentage(votes, 0) == 67
  {
    var votes := map["A" := [0], "B" := [0, 1], "C" := [1]];
    assert VotersFor(votes, 0) == {"A", "B"};
    assert VotersFor(votes, 1) == {"B", "C"};
    assert votes.Keys == {"A", "B", "C"};
  }

  /** `options.filter(o => o.trim())`: the options that are not blank, kept as
      typed (they are not trimmed). */
  function NonBlankOptions(options: seq<string>): (r: seq<string>)
    ensures |r| <= |options|
    ensures forall o :: o in r <==> o in options && !IsBlank(o)
    ensures (forall k :: 0 <= k < |options| ==> !IsBlank(options[k])) ==> r == options
  {
    if options == [] then []
    else if IsBlank(options[0]) then NonBlankOptions(options[1..])
    else [options[0]] + NonBlankOptions(options[1..])
  }

  /** The filter keeps the options it does not drop in their typed order: it
      distributes over concatenation. */
  lemma {:induction false} NonBlankOptionsKeepOrder(a: seq<string>, b: seq<string>)
    ensures NonBlankOptions(a + b) == NonBlankOptions(a) + NonBlankOptions(b)
  {
    if a == [] {
      assert a + b == b;
    } else {
      assert (a + b)[1..] == a[1..] + b;
      NonBlankOptionsKeepOrder(a[1..], b);
    }
  }

  /** `handleSave`: a poll with a non-blank question and at least two non-blank
      options is saved with the trimmed question, the non-blank options and the
      stored votes; anything else is refused and no update is sent. */
  function SavePoll(question: string, options: seq<string>, multipleChoice: bool, storedVotes: Votes): (r: Option<Poll>)
    ensures r.Some? <==> !IsBlank(question) && |NonBlankOptions(options)| >= MinOptions
    ensures r.Some? ==> r.value.question == Trim(question) && IsTrimmed(r.value.question) && r.value.question != ""
    ensures r.Some? ==> r.value.options == NonBlankOptions(options)
    ensures r.Some? ==> forall k :: 0 <= k < |r.value.options| ==> !IsBlank(r.value.options[k]) && r.value.options[k] in options
    ensures r.Some? ==> |r.value.options| >= MinOptions
    ensures r.Some? ==> r.value.multipleChoice == multipleChoice && r.value.votes == storedVotes
  {
    var valid := NonBlankOptions(options);
    if Trim(question) != [] && |valid| >= 2 then
      assert forall k :: 0 <= k < |valid| ==> valid[k] in valid;
      Some(Poll(Trim(question), valid, multipleChoice, storedVotes))
    else None
  }

  /** A freshly added poll can be saved as it is. */
  lemma DefaultPollSaves()
    ensures SavePoll(DefaultQuestion, ["Opzione 1", "Opzione 2"], false, map[]).Some?
  {
    assert !IsSpace("Opzione 1"[0]) && !IsSpace("Opzione 2"[0]) && !IsSpace(DefaultQuestion[0]);
    assert NonBlankOptions(["Opzione 2"]) == ["Opzione 2"];
    assert NonBlankOptions(["Opzione 1", "Opzione 2"]) == ["Opzione 1"] + NonBlankOptions(["Opzione 2"]);
  }

  /** `addOption`: one more empty option while there are fewer than eight. */
  function AddOption(options: seq<string>): (r: seq<string>)
    ensures |options| < MaxOptions ==> r == options + [""]
    ensures |options| >= MaxOptions ==> r == options
  {
    if |options| < MaxOptions then options + [""] else options
  }

  /** `removeOption`: drop the option at `index` while there are more than two;
      an index outside the list removes nothing. */
  function RemoveOption(options: seq<string>, index: int): (r: seq<string>)
    ensures |options| <= MinOptions ==> r == options
    ensures |options| > MinOptions && 0 <= index < |options| ==>
      |r| == |options| - 1
      && (forall k :: 0 <= k < index ==> r[k] == options[k])
      && (forall k :: index <= k < |r| ==> r[k] == options[k + 1])
    ensures !(0 <= index < |options|) ==> r == options
  {
    if |options| > MinOptions && 0 <= index < |options| then options[..index] + options[index + 1..] else options
  }

  /** Starting from a list of two to eight options, adding and removing keep it
      within two to eight. */
  lemma OptionCountStaysInRange(options: seq<string>, index: int)
    requires MinOptions <= |options| <= MaxOptions
    ensures MinOptions <= |AddOption(options)| <= MaxOptions
    ensures MinOptions <= |RemoveOption(options, index)| <= MaxOptions
  {
  }

  /** `updateOption`: write option `index`, leaving every other option alone. */
  function UpdateOption(options: seq<string>, index: int, value: string): (r: seq<string>)
    requires 0 <= index < |options|
    ensures |r| == |options| && r[index] == value
    ensures forall k :: 0 <= k < |r| && k != index ==> r[k] == options[k]
  {
    options[index := value]
  }

  /** The poll component's local editing state. */
  class PollEditor {
    var isEditing: bool
    var question: string
    var options: seq<string>
    var multipleChoice: bool

    /** Opens in editing mode only for someone who may edit a poll whose
        question is still empty or the placeholder. */
    constructor (poll: Poll, canEdit: bool)
      ensures isEditing == (canEdit && (poll.question == "" || poll.question == DefaultQuestion))
      ensures question == poll.question && options == poll.options && multipleChoice == poll.multipleChoice
    {
      isEditing := canEdit && (poll.question == "" || poll.question == DefaultQuestion);
      question := poll.question;
      options := poll.options;
      multipleChoice := poll.multipleChoice;
    }

    /** The edit button. */
    method StartEditing()
      modifies this`isEditing
      ensures isEditing
    {
      isEditing := true;
    }

    /** Typing in the question field. */
    method SetQuestion(value: string)
      modifies this`question
      ensures question == value
    {
      question := value;
    }

    /** The multiple-choice checkbox. */
    method SetMultipleChoice(value: bool)
      modifies this`multipleChoice
      ensures multipleChoice == value
    {
      multipleChoice := value;
    }

    method AddOptionField()
      modifies this`options
      ensures options == AddOption(old(options))
    {
      if |options| < MaxOptions {
        options := options + [""];
      }
    }

    method RemoveOptionField(index: int)
      modifies this`options
      ensures options == RemoveOption(old(options), index)
    {
      if |options| > MinOptions {
        if 0 <= index < |options| {
          options := options[..index] + options[index + 1..];
        }
      }
    }

    method UpdateOptionField(index: int, value: string)
      requires 0 <= index < |options|
      modifies this`options
      ensures options == UpdateOption(old(options), index, value)
    {
      var newOptions := options;
      newOptions := newOptions[index := value];
      options := newOptions;
    }

    /** `handleSave`: send the validated poll and leave editing mode, or stay
        in editing mode and send nothing. */
    method Save(storedVotes: Votes) returns (update: Option<Poll>)
      modifies this`isEditing
      ensures update == SavePoll(question, options, multipleChoice, storedVotes)
      ensures isEditing == (old(isEditing) && update.None?)
    {
      update := SavePoll(question, options, multipleChoice, storedVotes);
      if update.Some? {
        isEditing := false;
      }
    }

    /** `handleVote`: ignored when interaction is not allowed, otherwise the
        poll with the voter's selection changed and everything else kept. */
    method Vote(poll: Poll, canInteract: bool, nickname: string, i: int) returns (update: Option<Poll>)
      ensures update.Some? <==> canInteract
      ensures update.Some? ==> update.value == poll.(votes := CastVote(poll.votes, nickname, multipleChoice, i))
    {
      if !canInteract {
        return None;
      }
      var votes := poll.votes;
      var userVotes := UserVotes(votes, nickname);
      if multipleChoice {
        if i in userVotes {
          votes := votes[nickname := WithoutChoice(userVotes, i)];
        } else {
          votes := votes[nickname := userVotes + [i]];
        }
      } else {
        votes := votes[nickname := [i]];
      }
      update := Some(poll.(votes := votes));
    }
  }
}
