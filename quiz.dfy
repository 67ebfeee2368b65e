/** The bot's per-user progress store and the four handlers that read or
    change it: `question`, `try_again`, `check_answer` and `reset`. Replies
    to the chat are returned as an `Outcome` value. */
module QuizBot {
  import opened Bank
  import opened Selection

  /** A key of the progress dictionary. Users are stored under their numeric
      id; `Literal` stands for any other key, such as the string 'key' that
      the reset handler pops. */
  datatype Key = User(id: int) | Literal(name: string)

  /** The key the reset handler removes. */
  const ResetKey: Key := Literal("key")

  /** What a handler hands back to the chat layer. `Raised` is an exception
      that escapes the handler: the dispatcher catches it and no reply is sent. */
  datatype Outcome =
    | Shown(id: int, prompt: string)
    | Exhausted
    | Graded(grade: Grade)
    | ResetConfirmed
    | Raised(error: PyError)

  datatype PyError = KeyError

  /** The chat layer routes a plain message to `check_answer` only when it
      starts with one of the letters A to E. */
  predicate ReachesCheckAnswer(text: string) {
    |text| > 0 && 'A' <= text[0] <= 'E'
  }

  /** A stored history: at least one question shown, every entry a valid id. */
  predicate ValidHistory(shown: seq<int>, n: int) {
    shown != [] && AllInRange(shown, n)
  }

  /** The ids shown to user `u`; empty when the store has no record of `u`. */
  function History(store: map<Key, seq<int>>, u: int): seq<int> {
    if User(u) in store then store[User(u)] else []
  }

  class Quiz {
    /** The question bank, fixed for the life of the bot. */
    const questions: QuestionBank
    /** For each user, the ids of the questions shown to them, in order. */
    var userQns: map<Key, seq<int>>

    /** The bank is usable and every stored history is non-empty and holds
        only ids of the bank. */
    ghost predicate Valid()
      reads this
    {
      && WellFormed(questions) && |questions| >= 1
      && forall k :: k in userQns ==> ValidHistory(userQns[k], |questions|)
    }

    constructor (bank: QuestionBank)
      requires WellFormed(bank) && |bank| >= 1
      ensures Valid() && questions == bank && userQns == map[]
    {
      questions := bank;
      userQns := map[];
    }

    /** `/question`: show `u` a question they have not been shown yet. A new
        user gets any id of the bank; a known user gets an unseen one, or
        `Exhausted` with nothing recorded once every id has been shown. */
    method Question(u: int) returns (o: Outcome)
      requires Valid()
      modifies this
      ensures Valid()
      ensures o.Shown? || o == Exhausted
      ensures o.Shown? ==> 1 <= o.id <= |questions| && o.prompt == questions[o.id].prompt
      ensures o.Shown? ==> o.id !in History(old(userQns), u)
      ensures o.Shown? ==> userQns == old(userQns)[User(u) := History(old(userQns), u) + [o.id]]
      ensures o == Exhausted <==>
                User(u) in old(userQns) && forall x :: 1 <= x <= |questions| ==> x in old(userQns)[User(u)]
      ensures o == Exhausted <==> User(u) in old(userQns) && Unseen(|questions|, old(userQns)[User(u)]) == []
      ensures o == Exhausted ==> userQns == old(userQns)
    {
      var key := User(u);
      var chosen: int;
      if key in userQns {
        var completed := userQns[key];
        var newQuestions := Unseen(|questions|, completed);
        UnseenEmpty(|questions|, completed);
        if newQuestions == [] {
          o := Exhausted;
          return;
        }
        assert newQuestions[0] in newQuestions;
        chosen :| chosen in newQuestions;
      } else {
        userQns := userQns[key := []];
        assert 1 <= 1 <= |questions|;
        chosen :| 1 <= chosen <= |questions|;
      }
      var text := questions[chosen].prompt;
      userQns := userQns[key := userQns[key] + [chosen]];
      o := Shown(chosen, text);
    }

    /** `/try`: show `u` the question they were shown last once more, and
        record it again. A user with no record makes the lookup raise. */
    method TryAgain(u: int) returns (o: Outcome)
      requires Valid()
      modifies this
      ensures Valid()
      ensures User(u) !in old(userQns) ==> o == Raised(KeyError) && userQns == old(userQns)
      ensures User(u) in old(userQns) ==>
                var shown := old(userQns)[User(u)];
                var last := shown[|shown| - 1];
                && o == Shown(last, questions[last].prompt)
                && userQns == old(userQns)[User(u) := shown + [last]]
    {
      var key := User(u);
      if key !in userQns {
        o := Raised(KeyError);
        return;
      }
      var last := userQns[key][|userQns[key]| - 1];
      var text := questions[last].prompt;
      userQns := userQns[key := userQns[key] + [last]];
      o := Shown(last, text);
    }

    /** The question `u` was shown last. */
    function Pending(u: int): (id: int)
      reads this
      requires Valid() && User(u) in userQns
      ensures id in questions && id in userQns[User(u)]
    {
      userQns[User(u)][|userQns[User(u)]| - 1]
    }

    /** An answer: grade the message text against the label of the question
        `u` was shown last. The store is only read, never changed. */
    method CheckAnswer(u: int, text: string) returns (o: Outcome)
      requires Valid()
      ensures User(u) !in userQns ==> o == Raised(KeyError)
      ensures o == Graded(Correct) <==> User(u) in userQns && text == questions[Pending(u)].answer
      ensures o == Graded(Wrong) <==> User(u) in userQns && text != questions[Pending(u)].answer
    {
      var key := User(u);
      if key !in userQns {
        o := Raised(KeyError);
        return;
      }
      var mostRecent := userQns[key][|userQns[key]| - 1];
      o := Graded(GradeAnswer(questions[mostRecent], text));
    }

    /** `/reset` as the bot has it: it pops the constant key 'key', not the
        caller's id, and confirms regardless. No user's record changes. */
    method Reset(u: int) returns (o: Outcome)
      requires Valid()
      modifies this
      ensures Valid() && o == ResetConfirmed
      ensures userQns == old(userQns) - {ResetKey}
      ensures forall v :: History(userQns, v) == History(old(userQns), v)
    {
      userQns := userQns - {ResetKey};
      o := ResetConfirmed;
    }

    /** `/reset` as its reply describes it: forget the caller's record, so
        the next question is drawn from the whole bank again. */
    method ResetUser(u: int) returns (o: Outcome)
      requires Valid()
      modifies this
      ensures Valid() && o == ResetConfirmed
      ensures userQns == old(userQns) - {User(u)}
      ensures History(userQns, u) == []
    {
      userQns := userQns - {User(u)};
      o := ResetConfirmed;
    }
  }

  /** Of the two texts that differ from the label "B", the chat layer drops
      "b" before it reaches the handler, while "B " passes and is graded wrong. */
  lemma FilterThenGrade(entry: BankEntry)
    requires entry.answer == "B"
    ensures !ReachesCheckAnswer("b")
    ensures ReachesCheckAnswer("B ") && GradeAnswer(entry, "B ") == Wrong
    ensures ReachesCheckAnswer("B") && GradeAnswer(entry, "B") == Correct
  {
  }

  /** Popping 'key' from any store leaves every user's history as it was. */
  lemma ResetAsWrittenKeepsHistories(store: map<Key, seq<int>>, u: int)
    ensures History(store - {ResetKey}, u) == History(store, u)
  {
  }

  /** The session of a single user on the bot's own bank: `FirstQuestion`,
      then `RetryAfterWrongAnswer` with the text "E" (no question of the bank
      has that label), then the remaining three questions and the two resets
      of `AfterExhaustion`. */
  method Walkthrough(prompts: seq<string>, u: int) returns (afterReset: Outcome, afterResetUser: Outcome)
    requires |prompts| == 4
    ensures afterReset == Exhausted
    ensures afterResetUser.Shown? && 1 <= afterResetUser.id <= 4
  {
    var quiz := FirstQuestion(prompts, u);
    RetryAfterWrongAnswer(quiz, u, "E");
    var asked := AskUntilExhausted(quiz, u);
    assert asked == 3;
    afterReset, afterResetUser := AfterExhaustion(quiz, u);
  }

  /** A new user's first question on the bot's own bank: it is recorded as
      their only entry, three questions stay unseen, and "E" is not its label. */
  method FirstQuestion(prompts: seq<string>, u: int) returns (quiz: Quiz)
    requires |prompts| == 4
    ensures fresh(quiz) && quiz.Valid() && |quiz.questions| == 4 && User(u) in quiz.userQns
    ensures |Unseen(4, quiz.userQns[User(u)])| == 3
    ensures quiz.questions[quiz.Pending(u)].answer != "E"
  {
    var bank := SourceBank(prompts);
    quiz := new Quiz(bank);
    var o := quiz.Question(u);
    assert quiz.userQns[User(u)] == [o.id];
    UnseenOfNothing(4);
    UnseenAfterFresh(4, [], o.id);
    assert quiz.Pending(u) == o.id;
    NoSourceLabelIsE(prompts, o.id);
  }

  /** None of the bot's four questions has the label "E". */
  lemma NoSourceLabelIsE(prompts: seq<string>, id: int)
    requires |prompts| == 4 && 1 <= id <= 4
    ensures SourceBank(prompts)[id].answer != "E"
  {
    assert SourceBank(prompts)[id].answer == SourceLabels[id - 1];
    assert SourceLabels[id - 1][0] != 'E';
  }

  /** A wrong answer is graded wrong and changes nothing; a retry shows the
      same question again and records it once more, without using up an
      unseen one; the right answer to it is then graded correct. */
  method RetryAfterWrongAnswer(quiz: Quiz, u: int, wrong: string)
    requires quiz.Valid() && User(u) in quiz.userQns
    requires wrong != quiz.questions[quiz.Pending(u)].answer
    modifies quiz
    ensures quiz.Valid() && User(u) in quiz.userQns
    ensures quiz.userQns == old(quiz.userQns)[User(u) := old(quiz.userQns)[User(u)] + [old(quiz.Pending(u))]]
    ensures Unseen(|quiz.questions|, quiz.userQns[User(u)]) == Unseen(|quiz.questions|, old(quiz.userQns)[User(u)])
  {
    var pending := quiz.Pending(u);
    var o := quiz.CheckAnswer(u, wrong);
    assert o == Graded(Wrong);

    o := quiz.TryAgain(u);
    assert o == Shown(pending, quiz.questions[pending].prompt);
    UnseenIgnores(|quiz.questions|, old(quiz.userQns)[User(u)], pending);
    assert quiz.Pending(u) == pending;

    o := quiz.CheckAnswer(u, quiz.questions[pending].answer);
    assert o == Graded(Correct);
  }

  /** A known user who asks for as many questions as are unseen is shown
      each of them, and then has been shown every id of the bank. */
  method AskUntilExhausted(quiz: Quiz, u: int) returns (asked: nat)
    requires quiz.Valid() && User(u) in quiz.userQns
    modifies quiz
    ensures quiz.Valid() && User(u) in quiz.userQns
    ensures asked == |Unseen(|quiz.questions|, old(quiz.userQns)[User(u)])|
    ensures Unseen(|quiz.questions|, quiz.userQns[User(u)]) == []
  {
    asked := 0;
    while Unseen(|quiz.questions|, quiz.userQns[User(u)]) != []
      invariant quiz.Valid() && User(u) in quiz.userQns
      invariant asked + |Unseen(|quiz.questions|, quiz.userQns[User(u)])|
                == |Unseen(|quiz.questions|, old(quiz.userQns)[User(u)])|
      decreases |Unseen(|quiz.questions|, quiz.userQns[User(u)])|
    {
      ghost var before := quiz.userQns[User(u)];
      var o := quiz.Question(u);
      assert o.Shown?;
      UnseenAfterFresh(|quiz.questions|, before, o.id);
      asked := asked + 1;
    }
  }

  /** For a user who has been shown every question, `/reset` as written
      changes nothing: the next question is still refused. The intended reset
      makes the next question succeed, with any id of the bank allowed. */
  method AfterExhaustion(quiz: Quiz, u: int) returns (afterReset: Outcome, afterResetUser: Outcome)
    requires quiz.Valid() && User(u) in quiz.userQns
    requires Unseen(|quiz.questions|, quiz.userQns[User(u)]) == []
    modifies quiz
    ensures quiz.Valid()
    ensures afterReset == Exhausted
    ensures afterResetUser.Shown? && 1 <= afterResetUser.id <= |quiz.questions|
    ensures quiz.userQns == (old(quiz.userQns) - {ResetKey, User(u)})[User(u) := [afterResetUser.id]]
  {
    var o := quiz.Question(u);
    assert o == Exhausted;
    o := quiz.Reset(u);
    afterReset := quiz.Question(u);

    ghost var cleared := quiz.userQns - {User(u)};
    assert cleared == old(quiz.userQns) - {ResetKey, User(u)};
    o := quiz.ResetUser(u);
    afterResetUser := quiz.Question(u);
    assert History(cleared, u) + [afterResetUser.id] == [afterResetUser.id];
  }
}
