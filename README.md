# Quiz bot progress model

A Dafny model of the quiz bot's per-user progress state machine. The bot keeps one dictionary from a user's id to
the ordered list of question ids shown to that user. Four chat handlers read or change it:

- `/question` draws an id the user has not been shown yet;
- `/try` shows the last question again;
- an answer message is graded against the last question's label;
- `/reset` confirms a reset.

Three modules, one per part of the bot:

- `Bank` (bank.dfy): the question bank, a map from ids `1..N` to a prompt and a correct label. It also holds the
  bot's own four-question bank with labels B, D, A, B, and exact-match grading.
- `Selection` (selection.dfy): the unseen-id list `[x for x in 1..N if x not in shown]` as a function, and lemmas
  about how that list shrinks. A fresh question removes exactly one id. A repeat or retry removes none. A history of
  `k` distinct ids leaves `N - k` unseen, so after `N` fresh questions nothing is left.
- `QuizBot` (quiz.dfy): the class `Quiz`. Its constant field `questions` is the bank and its field `userQns` is the
  progress dictionary. The methods `Question`, `TryAgain`, `CheckAnswer`, `Reset` and `ResetUser` are the handlers.
  `Valid()` is the store's invariant: the bank's ids are exactly `1..N` with `N >= 1`, and every stored list is
  non-empty and holds only bank ids. `Walkthrough` is a client method that follows one user's session on the bot's
  own bank. It is built from `FirstQuestion`, `RetryAfterWrongAnswer`, `AskUntilExhausted` and `AfterExhaustion`,
  which use only the handlers' contracts.

Dictionary keys are the datatype `Key = User(id) | Literal(name)`. A Python dictionary accepts keys of any
hashable type, and the reset handler pops the string `'key'`. That pop is modelled as a real removal of
`Literal("key")`, and the model proves it never touches a `User(_)` entry.

The random draws (`random.sample` on the unseen list, `random.randint(1, N)` for a new user) are modelled as
nondeterministic choice (`:|`) from the allowed ids. Chat replies are `Outcome` values. An exception that escapes a
handler becomes `Raised(KeyError)`: the dispatcher catches it, the store is unchanged and the user gets no reply.

Three behaviours of the code worth knowing:

- For an unknown user, `/try` and an answer raise `KeyError` (quiz.py:125, quiz.py:139) and no reply is sent.
- `/reset` removes nothing (quiz.py:159): the caller's list stays as it was, although the reply says the progress
  was reset. See Findings.
- A wrong answer leaves the list unchanged, because the removal at quiz.py:153 is commented out.

## Model

| member | source | states |
|---|---|---|
| `Bank.BankOf` | quiz.py:35-71 | a bank built from a list of entries numbers them 1..N: its ids are exactly 1..N, and question `id` is entry `id - 1` |
| `Bank.SourceBank` | quiz.py:35-71 | the bot's bank has exactly the ids 1..4, and their correct labels are B, D, A, B |
| `Bank.GradeAnswer` | quiz.py:148 | an answer is correct iff it has the label's length and the label's character at every position (exact, case-sensitive, untrimmed) |
| `Bank.GradingIsExact` | quiz.py:148-155 | against label "B": "B" is correct; "b" and "B " are wrong |
| `Selection.Unseen` | quiz.py:100 | the list holds exactly the ids in 1..n that are absent from the history |
| `Selection.UnseenAscending` | quiz.py:100 | the unseen list is strictly ascending, as `range` produces it, so it holds no id twice |
| `Selection.UnseenEmpty` | quiz.py:100-107 | the unseen list is empty iff every id 1..n is in the history |
| `Selection.UnseenOfNothing` | quiz.py:109-113 | with an empty history, all n ids are unseen |
| `Selection.UnseenIgnores` | quiz.py:125-130 | re-recording an id already shown (a retry), or an id outside 1..n, leaves the unseen list unchanged |
| `Selection.UnseenAfterFresh` | quiz.py:100-117 | recording an id of 1..n that was not yet shown makes the unseen list exactly one shorter |
| `Selection.UnseenCount` | quiz.py:97-117 | a history of k distinct valid ids has k <= n and leaves exactly n - k ids unseen |
| `Selection.ExhaustedAfterEveryId` | quiz.py:100-107 | after n distinct valid ids the unseen list is empty, and every id 1..n has been shown |
| `QuizBot.Quiz.constructor` | quiz.py:73 | the store starts empty over a well-formed non-empty bank, and the invariant holds |
| `QuizBot.Quiz.Question` | quiz.py:87-120 | keeps the invariant. On success: the id is in 1..N and was not shown to this user before, the prompt is that id's, and the user's list becomes the old list (empty for a new user) plus that id, with no other entry changed. The result is Exhausted iff the user is known and has been shown every id, and then nothing changes |
| `QuizBot.Quiz.TryAgain` | quiz.py:123-133 | keeps the invariant. For a known user: shows the last id's prompt and appends that same id, so the last id is unchanged and the list grows by one. For an unknown user: raises KeyError and changes nothing |
| `QuizBot.Quiz.Pending` | quiz.py:139-141 | a known user's last-shown id is a bank id and is in that user's list |
| `QuizBot.Quiz.CheckAnswer` | quiz.py:136-155 | the answer is graded Correct iff the user is known and the text equals the last question's label, and Wrong iff the user is known and the text differs. An unknown user raises KeyError. The store is never modified |
| `QuizBot.Quiz.Reset` | quiz.py:157-161 | as written: removes only the key 'key' and confirms, so every user's history is unchanged |
| `QuizBot.Quiz.ResetUser` | quiz.py:157-161 | as intended: removes only the caller's record and confirms, after which that user's history is empty |
| `QuizBot.ResetAsWrittenKeepsHistories` | quiz.py:159 | popping 'key' leaves every user's history as it was, for any store |
| `QuizBot.FirstQuestion` | quiz.py:109-117 | on the bot's own bank, a new user's first question leaves a valid store with that user's record, three ids unseen, and a label other than "E" |
| `QuizBot.NoSourceLabelIsE` | quiz.py:35-71 | none of the bot's four questions has the label "E" |
| `QuizBot.RetryAfterWrongAnswer` | quiz.py:123-155 | for a known user: a wrong answer, then `/try`, then the right answer. The store gains exactly one more copy of the pending id, and the unseen list stays the same |
| `QuizBot.AskUntilExhausted` | quiz.py:94-117 | for a known user, asking once per unseen id uses up the bank: after exactly that many questions, every id has been shown |
| `QuizBot.AfterExhaustion` | quiz.py:94-117 | for a user who has been shown every id: after `/reset` as written the next question is still Exhausted. After the intended reset the next question is Shown with an id in 1..N, and the store is the old one without 'key' and with that user's list replaced by that single id |
| `QuizBot.Walkthrough` | quiz.py:87-161 | on the bot's own bank, one user's session (question, wrong answer, retry, right answer, three more questions) ends exhausted: `/reset` as written leaves the next question Exhausted, while the intended reset gives a question with an id in 1..4 |
| `QuizBot.FilterThenGrade` | quiz.py:189 | the `^[A-E]` routing drops "b"; "B " gets through and is graded wrong against label "B" |

## Left out

- Telegram I/O: the replies, the reply keyboard and the `Updater`/dispatcher wiring in `main` (quiz.py:168-200). These are library calls, and replies are modelled as `Outcome` values instead.
- The `start`, `help` and `error` handlers (quiz.py:76-84, quiz.py:164-165): they send fixed text or log.
- All logging and its setup (quiz.py:27-30, and the `logger` calls inside the handlers).
- Reading the bot token from the command line (quiz.py:170-173).
- The `user_data` parameter of the handlers: none of them uses it.
- The probability distributions of `random.sample` and `random.randint`: only the set of ids each may return is modelled.
- Concurrency: the bot uses one global dictionary with no locking, and the model is sequential.
- Prompt contents: prompts are opaque strings, and `SourceBank` takes them as a parameter.
- QuizBot.ReachesCheckAnswer: the `^[A-E]` message filter (quiz.py:189) is stated as a predicate but is not a precondition of `CheckAnswer`, because the handler itself accepts any text.
- QuizBot.Quiz.constructor: requires a bank with at least one question. With an empty bank, `random.randint(1, 0)` raises after a new user's empty list has been stored. That case is excluded because the bot's bank has four questions.
- QuizBot.Quiz.TryAgain: the `IndexError` for a stored but empty list is not modelled, because `Valid()` rules out empty lists. Likewise a stored id missing from the bank (a `KeyError` on the bank lookup) cannot happen under `Valid()`.

## Findings

| source | as written | input that shows it | evidently intended | confidence | as-written member | corrected member |
|---|---|---|---|---|---|---|
| quiz.py:159 | `user_qns.pop('key', None)` removes the string key 'key', never the caller's integer id. Yet quiz.py:160-161 log and reply that the user's progress was reset | a user who has been shown all four questions sends `/reset` and then `/question`: the reply is still "no more questions" | `user_qns.pop(user.id, None)`: forget the caller's record, so the next `/question` draws from the whole bank | high, from reading the code; not executed | `QuizBot.Quiz.Reset` (with `QuizBot.ResetAsWrittenKeepsHistories`; `QuizBot.AfterExhaustion` ensures the next question is still Exhausted after it) | `QuizBot.Quiz.ResetUser` (after it the user's history is empty; `QuizBot.AfterExhaustion` ensures the next question is Shown) |
