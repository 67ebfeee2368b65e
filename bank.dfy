/** The question bank of the quiz bot: a fixed map from question ids 1..N to a
    prompt and the label of its correct option, and the exact-match grading of
    a submitted answer against that label. */
module Bank {

  /** One question: its prompt text (opaque here) and its correct label. */
  datatype BankEntry = BankEntry(prompt: string, answer: string)

  type QuestionBank = map<int, BankEntry>

  /** The handlers address questions by `range(1, N + 1)` with N the number of
      entries, so a usable bank has exactly the ids 1..N. */
  predicate WellFormed(bank: QuestionBank) {
    && (forall id :: id in bank ==> 1 <= id <= |bank|)
    && (forall id :: 1 <= id <= |bank| ==> id in bank)
  }

  /** The bank whose question `id` is `entries[id - 1]`, as the dictionary
      literal of the bot numbers its entries from 1. */
  function BankOf(entries: seq<BankEntry>): (bank: QuestionBank)
    ensures WellFormed(bank) && |bank| == |entries|
    ensures forall id :: 1 <= id <= |entries| ==> bank[id] == entries[id - 1]
  {
    if entries == [] then map[]
    else
      var earlier := BankOf(entries[..|entries| - 1]);
      assert |entries| !in earlier;
      earlier[|entries| := entries[|entries| - 1]]
  }

  /** Correct labels of the four questions the bot ships with. */
  const SourceLabels: seq<string> := ["B", "D", "A", "B"]

  /** The bot's own bank: four questions whose labels are B, D, A and B.
      The prompt texts are opaque, so they are a parameter. */
  function SourceBank(prompts: seq<string>): (bank: QuestionBank)
    requires |prompts| == 4
    ensures WellFormed(bank) && |bank| == 4
    ensures forall id :: 1 <= id <= 4 ==>
              bank[id].prompt == prompts[id - 1] && bank[id].answer == SourceLabels[id - 1]
  {
    BankOf(seq(4, i requires 0 <= i < 4 => BankEntry(prompts[i], SourceLabels[i])))
  }

  datatype Grade = Correct | Wrong

  /** Grading compares the whole message text with the stored label: the same
      length and the same character at every position, nothing more lenient. */
  function GradeAnswer(entry: BankEntry, text: string): (g: Grade)
    ensures g == Correct <==>
              |text| == |entry.answer| && forall i :: 0 <= i < |text| ==> text[i] == entry.answer[i]
  {
    if text == entry.answer then Correct else Wrong
  }

  /** No case folding and no trimming: against the label "B", the texts "b"
      and "B " are wrong and only "B" itself is correct. */
  lemma GradingIsExact(entry: BankEntry)
    requires entry.answer == "B"
    ensures GradeAnswer(entry, "B") == Correct
    ensures GradeAnswer(entry, "b") == Wrong && GradeAnswer(entry, "B ") == Wrong
  {
  }
}
