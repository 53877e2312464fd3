/** The question table: 25 statements, each weighting a few traits of one or
    both axes. The statement text is display content and is not modelled. */
module QuestionBank {
  import opened Axes
  import opened Scoring

  /** One question: its number and its trait weights per axis, as the
      (trait, weight) entries of an object literal, in written order. */
  datatype Question = Question(id: nat, traitX: seq<(XAxis, int)>, traitY: seq<(YAxis, int)>)

  /** The questions in the order they are asked. */
  const Questions: seq<Question> := [
    Question(1, [(Romantic, 2), (Analytical, -1)], []),
    Question(2, [(Altruistic, 2), (Independent, -1)], []),
    Question(3, [(Independent, 2), (Altruistic, -1)], []),
    Question(4, [(Analytical, 2), (Romantic, -1)], []),
    Question(5, [(Enigmatic, 2), (Vibrant, -1)], []),
    Question(6, [(Vibrant, 2), (Enigmatic, -1)], []),
    Question(7, [(Altruistic, 1), (Romantic, 1)], [(Traditional, 1)]),
    Question(8, [(Vibrant, 1), (Independent, 1)], [(Stoic, 1)]),
    Question(9, [(Altruistic, 2)], []),
    Question(10, [(Enigmatic, 1), (Independent, 1)], [(Creative, 1)]),
    Question(11, [(Analytical, 2)], [(Stoic, 1)]),
    Question(12, [(Vibrant, 2)], [(Casual, 1)]),
    Question(13, [], [(Traditional, 2), (Modern, -1)]),
    Question(14, [], [(Modern, 2), (Traditional, -1)]),
    Question(15, [], [(Casual, 2), (Formal, -1)]),
    Question(16, [], [(Formal, 2), (Casual, -1)]),
    Question(17, [], [(Creative, 2), (Stoic, -1)]),
    Question(18, [], [(Stoic, 2), (Creative, -1)]),
    Question(19, [(Analytical, 1)], [(Traditional, 1), (Formal, 1)]),
    Question(20, [(Independent, 1)], [(Casual, 1), (Modern, 1)]),
    Question(21, [(Romantic, 1)], [(Creative, 2)]),
    Question(22, [(Enigmatic, 1)], [(Traditional, 1), (Stoic, 1)]),
    Question(23, [(Analytical, 1)], [(Modern, 1), (Formal, 1)]),
    Question(24, [(Vibrant, 1)], [(Casual, 2)]),
    Question(25, [(Altruistic, 1), (Romantic, 1)], [(Traditional, 1), (Stoic, 1)])
  ]

  /** A usable weight: a non-zero integer of magnitude at most 2. */
  predicate IsWeight(w: int) {
    -2 <= w <= 2 && w != 0
  }

  /** Question q is the n-th one: its number is n, every weight is usable,
      no trait is listed twice, and it weights at least one trait. */
  predicate WellFormed(q: Question, n: nat) {
    && q.id == n
    && (forall i | 0 <= i < |q.traitX| :: IsWeight(q.traitX[i].1))
    && (forall i | 0 <= i < |q.traitY| :: IsWeight(q.traitY[i].1))
    && DistinctKeys(q.traitX) && DistinctKeys(q.traitY)
    && |q.traitX| + |q.traitY| > 0
  }

  /** The value questions (1 to 12) are well formed and numbered in order. */
  lemma ValueQuestionsWellFormed()
    ensures |Questions| == 25
    ensures forall i | 0 <= i < 12 :: WellFormed(Questions[i], i + 1)
  {
  }

  /** The approach questions (13 to 25) are well formed and numbered in order. */
  lemma ApproachQuestionsWellFormed()
    ensures |Questions| == 25
    ensures forall i | 12 <= i < 25 :: WellFormed(Questions[i], i + 1)
  {
  }

  /** The table holds 25 questions numbered 1 to 25 in order, each well formed. */
  lemma QuestionTableWellFormed()
    ensures |Questions| == 25
    ensures forall i | 0 <= i < |Questions| :: WellFormed(Questions[i], i + 1)
  {
    ValueQuestionsWellFormed();
    ApproachQuestionsWellFormed();
  }

  /** Every trait a question weights is a value of its axis list. */
  lemma WeightKeysOnAxes(q: Question)
    ensures forall i | 0 <= i < |q.traitX| :: q.traitX[i].0 in XAxes
    ensures forall i | 0 <= i < |q.traitY| :: q.traitY[i].0 in YAxes
  {
    AxesAreEnumerations();
  }
}
