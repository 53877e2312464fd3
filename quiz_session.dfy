/** The quiz session: the current question, the stack of score snapshots
    taken before each answer, the two score tables, and whether the last
    question has been answered. The functions below specify one answer and
    one step back on session values; the class QuizSession holds the state
    and updates it in place. */
module Quiz {
  import opened Axes
  import opened TypeCatalog
  import opened QuestionBank
  import opened Scoring
  import opened Resolver

  /** The answer values offered (LIKERT_OPTIONS), from "not at all" to "very much". */
  const LikertValues: seq<int> := [-2, -1, 0, 1, 2]

  /** The offered values are exactly -2 to 2, in increasing order. */
  lemma LikertRange()
    ensures |LikertValues| == 5
    ensures forall i | 0 <= i < |LikertValues| :: LikertValues[i] == i - 2
    ensures forall v :: v in LikertValues <==> -2 <= v <= 2
  {
    forall v | -2 <= v <= 2 ensures v in LikertValues {
      assert LikertValues[v + 2] == v;
    }
  }

  /** The scores as they were before one answer. */
  datatype Snapshot = Snapshot(traitX: map<XAxis, int>, traitY: map<YAxis, int>)

  /** A session value: index of the current question, snapshot stack, score
      tables, and whether the last answer has been given. */
  datatype Session = Session(
    index: nat,
    history: seq<Snapshot>,
    scoresX: map<XAxis, int>,
    scoresY: map<YAxis, int>,
    finishing: bool)

  /** A fresh session: first question, nothing answered. */
  function Start(): Session {
    Session(0, [], map[], map[], false)
  }

  /** An invariant of the reachable sessions: the index points at a
      question; there is one snapshot per answer given, which is the index
      while waiting for an answer and one more once finishing; finishing
      happens only on the last question. */
  predicate Valid(s: Session) {
    && s.index < |Questions|
    && |s.history| == s.index + (if s.finishing then 1 else 0)
    && (s.finishing ==> s.index == |Questions| - 1)
  }

  /** handleLevelSelect(v): push the pre-answer scores, add the current
      question's weights times v to both tables, then move to the next
      question or, on the last one, start finishing. */
  function Answer(s: Session, v: int): Session
    requires s.index < |Questions|
  {
    var q := Questions[s.index];
    var advance := s.index < |Questions| - 1;
    Session(
      if advance then s.index + 1 else s.index,
      s.history + [Snapshot(s.scoresX, s.scoresY)],
      Accumulate(s.scoresX, q.traitX, v),
      Accumulate(s.scoresY, q.traitY, v),
      if advance then s.finishing else true)
  }

  /** handleBack: nothing on the first question; otherwise restore the top
      snapshot, pop it, and go back one question. */
  function GoBack(s: Session): Session
    requires s.index > 0 ==> |s.history| > 0
  {
    if s.index > 0 then
      var prev := s.history[|s.history| - 1];
      Session(s.index - 1, s.history[..|s.history| - 1], prev.traitX, prev.traitY, s.finishing)
    else s
  }

  lemma StartValid()
    ensures Valid(Start())
  {
  }

  /** An answer keeps the session valid, pushes exactly the pre-answer
      scores, sets each weighted trait to its old score (0 when missing) plus
      weight * v, leaves every other trait's entry (or its absence) alone,
      and advances by one unless it was the last question, in which case it
      stays and starts finishing. */
  lemma AnswerStep(s: Session, v: int)
    requires Valid(s) && !s.finishing
    ensures var q, t := Questions[s.index], Answer(s, v);
      && Valid(t)
      && t.history == s.history + [Snapshot(s.scoresX, s.scoresY)]
      && (forall i | 0 <= i < |q.traitX| :: q.traitX[i].0 in t.scoresX
            && t.scoresX[q.traitX[i].0] == ScoreOf(s.scoresX, q.traitX[i].0) + q.traitX[i].1 * v)
      && (forall i | 0 <= i < |q.traitY| :: q.traitY[i].0 in t.scoresY
            && t.scoresY[q.traitY[i].0] == ScoreOf(s.scoresY, q.traitY[i].0) + q.traitY[i].1 * v)
      && (forall a | a !in KeysOf(q.traitX) :: (a in t.scoresX <==> a in s.scoresX) && ScoreOf(t.scoresX, a) == ScoreOf(s.scoresX, a))
      && (forall b | b !in KeysOf(q.traitY) :: (b in t.scoresY <==> b in s.scoresY) && ScoreOf(t.scoresY, b) == ScoreOf(s.scoresY, b))
      && (s.index < |Questions| - 1 ==> t.index == s.index + 1 && !t.finishing)
      && (s.index == |Questions| - 1 ==> t.index == s.index && t.finishing)
  {
    var q := Questions[s.index];
    QuestionTableWellFormed();
    assert WellFormed(q, s.index + 1);
    AccumulateEffect(s.scoresX, q.traitX, v);
    AccumulateEffect(s.scoresY, q.traitY, v);
  }

  /** The same answer as sums: every trait's score, entry or not, grows by
      its total weight in the question times v, and the traits with an entry
      are the old ones plus the weighted ones. */
  lemma AnswerScores(s: Session, v: int)
    requires s.index < |Questions|
    ensures var q, t := Questions[s.index], Answer(s, v);
      && (forall a :: ScoreOf(t.scoresX, a) == ScoreOf(s.scoresX, a) + WeightOf(q.traitX, a) * v)
      && (forall b :: ScoreOf(t.scoresY, b) == ScoreOf(s.scoresY, b) + WeightOf(q.traitY, b) * v)
      && t.scoresX.Keys == s.scoresX.Keys + KeysOf(q.traitX)
      && t.scoresY.Keys == s.scoresY.Keys + KeysOf(q.traitY)
  {
    var q := Questions[s.index];
    AccumulateKeys(s.scoresX, q.traitX, v);
    AccumulateKeys(s.scoresY, q.traitY, v);
    forall a ensures ScoreOf(Accumulate(s.scoresX, q.traitX, v), a) == ScoreOf(s.scoresX, a) + WeightOf(q.traitX, a) * v {
      AccumulateScore(s.scoresX, q.traitX, v, a);
    }
    forall b ensures ScoreOf(Accumulate(s.scoresY, q.traitY, v), b) == ScoreOf(s.scoresY, b) + WeightOf(q.traitY, b) * v {
      AccumulateScore(s.scoresY, q.traitY, v, b);
    }
  }

  /** Going back keeps the session valid; on the first question it changes
      nothing; otherwise it restores the top snapshot, pops it, and
      decrements the index. */
  lemma BackStep(s: Session)
    requires Valid(s) && !s.finishing
    ensures Valid(GoBack(s))
    ensures s.index == 0 ==> GoBack(s) == s
    ensures s.index > 0 ==>
      var t, top := GoBack(s), s.history[|s.history| - 1];
      && t.index == s.index - 1
      && t.history + [top] == s.history
      && t.scoresX == top.traitX && t.scoresY == top.traitY
  {
  }

  /** Answering and then going back restores the session exactly, whenever
      the answer moved on to another question. */
  lemma BackUndoesAnswer(s: Session, v: int)
    requires Valid(s) && !s.finishing && s.index < |Questions| - 1
    ensures GoBack(Answer(s, v)) == s
  {
    var t := Answer(s, v);
    assert t.history[..|t.history| - 1] == s.history;
  }

  /** Example: answering question 4 (index 3) with 2 adds 4 to Analytical,
      takes 2 from Romantic, and changes no other score on either axis. */
  lemma AnswerQuestionFourExample(s: Session)
    requires Valid(s) && !s.finishing && s.index == 3
    ensures var t := Answer(s, 2);
      && ScoreOf(t.scoresX, Analytical) == ScoreOf(s.scoresX, Analytical) + 4
      && ScoreOf(t.scoresX, Romantic) == ScoreOf(s.scoresX, Romantic) - 2
      && (forall a | a != Analytical && a != Romantic :: ScoreOf(t.scoresX, a) == ScoreOf(s.scoresX, a))
      && t.scoresY == s.scoresY
  {
    var q := Questions[3];
    assert q.traitX == [(Analytical, 2), (Romantic, -1)] && q.traitY == [];
    assert q.traitX[..1] == [(Analytical, 2)] && q.traitX[..1][..0] == [];
    forall a ensures ScoreOf(Answer(s, 2).scoresX, a) == ScoreOf(s.scoresX, a) + WeightOf(q.traitX, a) * 2 {
      AccumulateScore(s.scoresX, q.traitX, 2, a);
    }
  }

  /** The session after answering the given values in order from the start. */
  function Replay(answers: seq<int>): (s: Session)
    requires |answers| <= |Questions|
    ensures Valid(s)
    ensures s.finishing <==> |answers| == |Questions|
    ensures s.index == if |answers| < |Questions| then |answers| else |Questions| - 1
    decreases |answers|
  {
    if answers == [] then Start()
    else Answer(Replay(answers[..|answers| - 1]), answers[|answers| - 1])
  }

  /** The X contribution of the first answers to trait a: the sum over the
      questions answered of the question's weight on a times the answer. */
  function XTotal(answers: seq<int>, a: XAxis): int
    requires |answers| <= |Questions|
    decreases |answers|
  {
    if answers == [] then 0
    else
      var n := |answers| - 1;
      XTotal(answers[..n], a) + WeightOf(Questions[n].traitX, a) * answers[n]
  }

  /** The Y contribution of the first answers to trait b. */
  function YTotal(answers: seq<int>, b: YAxis): int
    requires |answers| <= |Questions|
    decreases |answers|
  {
    if answers == [] then 0
    else
      var n := |answers| - 1;
      YTotal(answers[..n], b) + WeightOf(Questions[n].traitY, b) * answers[n]
  }

  /** One more answer adds that question's weight times the answer to
      every trait's score. */
  lemma ReplayStep(answers: seq<int>)
    requires 0 < |answers| <= |Questions|
    ensures var n := |answers| - 1;
      && (forall a :: ScoreOf(Replay(answers).scoresX, a)
            == ScoreOf(Replay(answers[..n]).scoresX, a) + WeightOf(Questions[n].traitX, a) * answers[n])
      && (forall b :: ScoreOf(Replay(answers).scoresY, b)
            == ScoreOf(Replay(answers[..n]).scoresY, b) + WeightOf(Questions[n].traitY, b) * answers[n])
  {
    var n := |answers| - 1;
    var p := Replay(answers[..n]);
    assert Replay(answers) == Answer(p, answers[n]) && p.index == n;
    AnswerScores(p, answers[n]);
  }

  /** After any run of answers every X trait's score is its weighted sum. */
  lemma {:induction false} ReplayScoresX(answers: seq<int>, a: XAxis)
    requires |answers| <= |Questions|
    ensures ScoreOf(Replay(answers).scoresX, a) == XTotal(answers, a)
  {
    if answers != [] {
      ReplayScoresX(answers[..|answers| - 1], a);
      ReplayStep(answers);
    }
  }

  /** After any run of answers every Y trait's score is its weighted sum. */
  lemma {:induction false} ReplayScoresY(answers: seq<int>, b: YAxis)
    requires |answers| <= |Questions|
    ensures ScoreOf(Replay(answers).scoresY, b) == YTotal(answers, b)
  {
    if answers != [] {
      ReplayScoresY(answers[..|answers| - 1], b);
      ReplayStep(answers);
    }
  }

  /** After any run of answers one snapshot has been pushed per answer, and
      every trait's score is its weighted sum. */
  lemma ReplayScores(answers: seq<int>)
    requires |answers| <= |Questions|
    ensures var s := Replay(answers);
      && |s.history| == |answers|
      && (forall a :: ScoreOf(s.scoresX, a) == XTotal(answers, a))
      && (forall b :: ScoreOf(s.scoresY, b) == YTotal(answers, b))
  {
    forall a ensures ScoreOf(Replay(answers).scoresX, a) == XTotal(answers, a) {
      ReplayScoresX(answers, a);
    }
    forall b ensures ScoreOf(Replay(answers).scoresY, b) == YTotal(answers, b) {
      ReplayScoresY(answers, b);
    }
  }

  /** The history after a run of answers: the i-th snapshot holds the scores
      as they were before answer i, that is after the first i answers. */
  lemma {:induction false} ReplayHistory(answers: seq<int>)
    requires |answers| <= |Questions|
    ensures forall i | 0 <= i < |answers| ::
      Replay(answers).history[i] == Snapshot(Replay(answers[..i]).scoresX, Replay(answers[..i]).scoresY)
  {
    if answers != [] {
      var n := |answers| - 1;
      var shorter := answers[..n];
      ReplayHistory(shorter);
      var p := Replay(shorter);
      var top := Snapshot(p.scoresX, p.scoresY);
      assert Replay(answers).history == p.history + [top];
      forall i | 0 <= i < |answers|
        ensures Replay(answers).history[i] == Snapshot(Replay(answers[..i]).scoresX, Replay(answers[..i]).scoresY)
      {
        if i < n {
          assert shorter[..i] == answers[..i];
          assert Replay(answers).history[i] == p.history[i];
        } else {
          assert answers[..i] == shorter;
        }
      }
    }
  }

  /** Replaying one more answer and going back gives the shorter replay, as
      long as that answer was not the last question's. */
  lemma ReplayBack(answers: seq<int>, v: int)
    requires |answers| < |Questions| - 1
    ensures GoBack(Replay(answers + [v])) == Replay(answers)
  {
    assert (answers + [v])[..|answers|] == answers;
    BackUndoesAnswer(Replay(answers), v);
  }

  /** The session state of the quiz component, updated in place. */
  class QuizSession {
    var index: nat
    var history: seq<Snapshot>
    var scoresX: map<XAxis, int>
    var scoresY: map<YAxis, int>
    var finishing: bool

    /** The fields as a session value. */
    function State(): Session
      reads this
    {
      Session(index, history, scoresX, scoresY, finishing)
    }

    constructor ()
      ensures State() == Start()
      ensures Valid(State())
    {
      index := 0;
      history := [];
      scoresX := map[];
      scoresY := map[];
      finishing := false;
    }

    /** handleLevelSelect(v). Answer buttons are shown only while waiting
        for an answer, hence !finishing. */
    method Submit(v: int)
      requires Valid(State()) && !finishing
      modifies this
      ensures State() == Answer(old(State()), v)
      ensures Valid(State())
    {
      var q := Questions[index];
      history := history + [Snapshot(scoresX, scoresY)];
      var newScoresX := AddWeighted(scoresX, q.traitX, v);
      var newScoresY := AddWeighted(scoresY, q.traitY, v);
      scoresX := newScoresX;
      scoresY := newScoresY;
      if index < |Questions| - 1 {
        index := index + 1;
      } else {
        finishing := true;
      }
      AnswerStep(old(State()), v);
    }

    /** handleBack. The back button is shown only while waiting for an
        answer, hence !finishing. */
    method Back()
      requires Valid(State()) && !finishing
      modifies this
      ensures State() == GoBack(old(State()))
      ensures Valid(State())
    {
      if index > 0 {
        var prevScores := history[|history| - 1];
        scoresX := prevScores.traitX;
        scoresY := prevScores.traitY;
        history := history[..|history| - 1];
        index := index - 1;
      }
    }

    /** getResultType on the current scores. */
    method ResultType() returns (t: PersonalityType)
      ensures t == Resolver.ResultType(scoresX, scoresY)
    {
      t := GetResultType(scoresX, scoresY);
    }
  }
}
