/**
 * The proficiency quiz: three questions, each with one option per level. The
 * answers are tallied per level and the most common level wins, ties going to
 * the lower level. The chosen level is stored in the profile.
 */
module Quiz {
  import opened Types
  import opened Seqs
  import opened ProfileStore

  /** An answer option, by its id and the level it votes for; its wording is only displayed. */
  datatype QuizOption = QuizOption(id: string, level: Level)

  /** A question, by its id and its options; its wording is only displayed. */
  datatype Question = Question(id: string, options: seq<QuizOption>)

  const QuizQuestions: seq<Question> := [
    Question("q1", [
      QuizOption("q1-a", Beginner),
      QuizOption("q1-b", Intermediate),
      QuizOption("q1-c", Advanced)]),
    Question("q2", [
      QuizOption("q2-a", Beginner),
      QuizOption("q2-b", Intermediate),
      QuizOption("q2-c", Advanced)]),
    Question("q3", [
      QuizOption("q3-a", Beginner),
      QuizOption("q3-b", Intermediate),
      QuizOption("q3-c", Advanced)])
  ]

  /** Answers recorded so far: question id to chosen option id. */
  type Answers = map<string, string>

  /** `levelCounts`: how many answers vote for each level. */
  datatype Counts = Counts(beginner: nat, intermediate: nat, advanced: nat) {
    function Of(level: Level): nat {
      match level
      case Beginner => beginner
      case Intermediate => intermediate
      case Advanced => advanced
    }

    function Total(): nat {
      beginner + intermediate + advanced
    }
  }

  /** `levelCounts[level]++` when the answer votes, nothing otherwise. */
  function Bump(c: Counts, vote: Option<Level>): (r: Counts)
    ensures forall l :: r.Of(l) == c.Of(l) + (if vote == Some(l) then 1 else 0)
  {
    match vote
    case None => c
    case Some(Beginner) => c.(beginner := c.beginner + 1)
    case Some(Intermediate) => c.(intermediate := c.intermediate + 1)
    case Some(Advanced) => c.(advanced := c.advanced + 1)
  }

  /** The ids of the questions of a table. */
  function QuestionIds(questions: seq<Question>): set<string> {
    set q | q in questions :: q.id
  }

  /** A table of n questions has at most n different ids. */
  lemma {:induction false} QuestionIdsBound(questions: seq<Question>)
    ensures |QuestionIds(questions)| <= |questions|
    decreases |questions|
  {
    if questions != [] {
      var init := questions[..|questions| - 1];
      QuestionIdsBound(init);
      assert QuestionIds(questions) == QuestionIds(init) + {questions[|questions| - 1].id} by {
        assert questions == init + [questions[|questions| - 1]];
      }
    } else {
      assert QuestionIds(questions) == {};
    }
  }

  /**
   * The level one answer votes for: the level of the named option of the named
   * question of `questions`, or nothing when either id is unknown.
   */
  function Vote(questions: seq<Question>, questionId: string, optionId: string): (r: Option<Level>)
    ensures r.Some? ==> questionId in QuestionIds(questions)
  {
    match Find(questions, (q: Question) => q.id == questionId)
    case None => None
    case Some(question) =>
      match Find(question.options, (o: QuizOption) => o.id == optionId)
      case None => None
      case Some(option) => Some(option.level)
  }

  /** Each option of the quiz votes for its own level: option a for beginner, b for intermediate, c for advanced. */
  lemma VoteTable(k: nat, m: nat)
    requires k < |QuizQuestions| && m < 3
    ensures |QuizQuestions[k].options| == 3
    ensures Vote(QuizQuestions, QuizQuestions[k].id, QuizQuestions[k].options[m].id) == Some([Beginner, Intermediate, Advanced][m])
  {
    var question := QuizQuestions[k];
    FindFirst(QuizQuestions, (q: Question) => q.id == question.id, k);
    FindFirst(question.options, (o: QuizOption) => o.id == question.options[m].id, m);
  }

  /** An answer naming an unknown question casts no vote. */
  lemma VoteUnknownQuestion(questions: seq<Question>, questionId: string, optionId: string)
    requires forall q :: q in questions ==> q.id != questionId
    ensures Vote(questions, questionId, optionId) == None
  {
  }

  /** A vote is the level of an option with the named id, under a question with the named id. */
  lemma VoteIsOptionLevel(questions: seq<Question>, questionId: string, optionId: string)
    ensures Vote(questions, questionId, optionId).Some? ==>
      exists q, o :: q in questions && q.id == questionId && o in q.options && o.id == optionId &&
        Vote(questions, questionId, optionId).value == o.level
  {
    var question := Find(questions, (q: Question) => q.id == questionId);
    if question.Some? {
      var option := Find(question.value.options, (o: QuizOption) => o.id == optionId);
      if option.Some? {
        assert question.value in questions && option.value in question.value.options;
      }
    }
  }

  /** An answer naming an option its question (the first with that id) lacks casts no vote. */
  lemma VoteUnknownOption(questions: seq<Question>, k: nat, optionId: string)
    requires k < |questions|
    requires forall j :: 0 <= j < k ==> questions[j].id != questions[k].id
    requires forall o :: o in questions[k].options ==> o.id != optionId
    ensures Vote(questions, questions[k].id, optionId) == None
  {
    FindFirst(questions, (q: Question) => q.id == questions[k].id, k);
  }

  /** For example, an option of question 2 given as the answer to question 1, or a made-up option id. */
  lemma VoteUnknownOptionExample()
    ensures Vote(QuizQuestions, "q1", "q2-a") == None
    ensures Vote(QuizQuestions, "q1", "q1-z") == None
  {
    VoteUnknownOption(QuizQuestions, 0, "q2-a");
    VoteUnknownOption(QuizQuestions, 0, "q1-z");
  }

  /** A vote for each key: what a recorded answer votes for, nothing for a question not answered. */
  type Votes = string -> Option<Level>

  function VoteOf(questions: seq<Question>, answers: Answers): Votes {
    q => if q in answers then Vote(questions, q, answers[q]) else None
  }

  /** The keys among `keys` that vote for `level`. */
  ghost function Voters(votes: Votes, keys: set<string>, level: Level): set<string> {
    set q | q in keys && votes(q) == Some(level)
  }

  /** The counts after visiting the keys in `keys`. */
  ghost function TallyOver(votes: Votes, keys: set<string>): Counts {
    Counts(|Voters(votes, keys, Beginner)|, |Voters(votes, keys, Intermediate)|, |Voters(votes, keys, Advanced)|)
  }

  /** The counts after visiting every recorded answer. */
  ghost function Tally(questions: seq<Question>, answers: Answers): Counts {
    TallyOver(VoteOf(questions, answers), answers.Keys)
  }

  /**
   * The level of the largest count; among equal counts the lower level, since
   * a later level must beat the running maximum strictly.
   */
  function MostCommon(c: Counts): (r: Level)
    ensures forall l :: c.Of(l) <= c.Of(r)
    ensures forall l: Level :: l.Rank() < r.Rank() ==> c.Of(l) < c.Of(r)
  {
    if c.advanced > c.beginner && c.advanced > c.intermediate then Advanced
    else if c.intermediate > c.beginner then Intermediate
    else Beginner
  }

  /** One more visited key joins the voters of `level` exactly when it votes for `level`. */
  lemma VotersAdd(votes: Votes, keys: set<string>, q: string, level: Level)
    requires q !in keys
    ensures |Voters(votes, keys + {q}, level)| == |Voters(votes, keys, level)| + if votes(q) == Some(level) then 1 else 0
  {
    if votes(q) == Some(level) {
      assert Voters(votes, keys + {q}, level) == Voters(votes, keys, level) + {q};
    } else {
      assert Voters(votes, keys + {q}, level) == Voters(votes, keys, level);
    }
  }

  /** Visiting one more key adds exactly one to the level it votes for, and nothing otherwise. */
  lemma TallyOverAdd(votes: Votes, keys: set<string>, q: string)
    requires q !in keys
    ensures TallyOver(votes, keys + {q}) == Bump(TallyOver(votes, keys), votes(q))
  {
    VotersAdd(votes, keys, q, Beginner);
    VotersAdd(votes, keys, q, Intermediate);
    VotersAdd(votes, keys, q, Advanced);
  }

  /** Visiting nothing counts nothing. */
  lemma TallyOverEmpty(votes: Votes)
    ensures TallyOver(votes, {}) == Counts(0, 0, 0)
  {
    assert Voters(votes, {}, Beginner) == {};
    assert Voters(votes, {}, Intermediate) == {};
    assert Voters(votes, {}, Advanced) == {};
  }

  /** Nothing answered: all counts are zero and the result is beginner. */
  lemma EmptyTally(questions: seq<Question>)
    ensures Tally(questions, map[]) == Counts(0, 0, 0)
    ensures MostCommon(Tally(questions, map[])) == Beginner
  {
    TallyOverEmpty(VoteOf(questions, map[]));
  }

  /** Recording the answer to a question not yet answered adds exactly its vote to the tally. */
  lemma TallyInsert(questions: seq<Question>, answers: Answers, q: string, optionId: string)
    requires q !in answers
    ensures Tally(questions, answers[q := optionId]) == Bump(Tally(questions, answers), Vote(questions, q, optionId))
  {
    var next := answers[q := optionId];
    var before := VoteOf(questions, answers);
    var after := VoteOf(questions, next);
    forall x | x in answers.Keys ensures after(x) == before(x) {
      assert next[x] == answers[x];
    }
    assert Voters(after, answers.Keys, Beginner) == Voters(before, answers.Keys, Beginner);
    assert Voters(after, answers.Keys, Intermediate) == Voters(before, answers.Keys, Intermediate);
    assert Voters(after, answers.Keys, Advanced) == Voters(before, answers.Keys, Advanced);
    TallyOverAdd(after, answers.Keys, q);
    assert next.Keys == answers.Keys + {q};
  }

  lemma SubsetCardinality(a: set<string>, b: set<string>)
    requires a <= b
    ensures |a| <= |b|
  {
    assert b == a + (b - a);
  }

  /** The keys that vote at all. */
  ghost function Counted(votes: Votes, keys: set<string>): set<string> {
    Voters(votes, keys, Beginner) + Voters(votes, keys, Intermediate) + Voters(votes, keys, Advanced)
  }

  /** A key votes for one level at most, so the counts add up to the number of keys that vote. */
  lemma CountedSize(votes: Votes, keys: set<string>)
    ensures |Counted(votes, keys)| == TallyOver(votes, keys).Total()
    ensures Counted(votes, keys) <= keys
    ensures forall q :: q in Counted(votes, keys) ==> votes(q).Some?
  {
    var b := Voters(votes, keys, Beginner);
    var i := Voters(votes, keys, Intermediate);
    var a := Voters(votes, keys, Advanced);
    assert b * i == {};
    assert (b + i) * a == {};
  }

  /**
   * Each answer is counted at most once, so the counts add up to at most the
   * number of answers and at most the number of questions.
   */
  lemma TallyBound(questions: seq<Question>, answers: Answers)
    ensures Tally(questions, answers).Total() <= |answers|
    ensures Tally(questions, answers).Total() <= |questions|
  {
    var votes := VoteOf(questions, answers);
    var counted := Counted(votes, answers.Keys);
    CountedSize(votes, answers.Keys);
    SubsetCardinality(counted, answers.Keys);
    forall q | q in counted ensures q in QuestionIds(questions) {
      assert Vote(questions, q, answers[q]).Some?;
    }
    QuestionIdsBound(questions);
    SubsetCardinality(counted, QuestionIds(questions));
  }

  /** The `forEach` loop: visit every key once, adding each key's vote to the counts. */
  method CountOver(votes: Votes, keys: set<string>) returns (counts: Counts)
    ensures counts == TallyOver(votes, keys)
  {
    counts := Counts(0, 0, 0);
    var visited: set<string> := {};
    TallyOverEmpty(votes);
    while visited != keys
      invariant visited <= keys
      invariant counts == TallyOver(votes, visited)
      decreases |keys - visited|
    {
      var q :| q in keys - visited;
      TallyOverAdd(votes, visited, q);
      counts := Bump(counts, votes(q));
      visited := visited + {q};
    }
  }

  /** The counting half of `calculateProficiencyLevel`: one pass over the recorded answers. */
  method CountVotes(questions: seq<Question>, answers: Answers) returns (counts: Counts)
    ensures counts == Tally(questions, answers)
    ensures counts.Total() <= |answers| && counts.Total() <= |questions|
  {
    counts := CountOver(VoteOf(questions, answers), answers.Keys);
    TallyBound(questions, answers);
  }

  /**
   * `calculateProficiencyLevel`: count the votes of every recorded answer,
   * then take the most common level by a running maximum.
   */
  method CalculateProficiencyLevel(questions: seq<Question>, answers: Answers) returns (level: Level)
    ensures level == MostCommon(Tally(questions, answers))
    ensures level == Advanced <==> Tally(questions, answers).advanced > Tally(questions, answers).beginner && Tally(questions, answers).advanced > Tally(questions, answers).intermediate
    ensures level == Intermediate <==> Tally(questions, answers).intermediate > Tally(questions, answers).beginner && Tally(questions, answers).advanced <= Tally(questions, answers).intermediate
  {
    var counts := CountVotes(questions, answers);
    level := Beginner;
    var maxCount := counts.beginner;
    if counts.intermediate > maxCount {
      level := Intermediate;
      maxCount := counts.intermediate;
    }
    if counts.advanced > maxCount {
      level := Advanced;
    }
  }

  /** The answers after choosing `choices[k]` for the k-th question, in order. */
  function Recorded(questions: seq<Question>, choices: seq<string>): (r: Answers)
    requires |choices| <= |questions|
    requires forall i, j :: 0 <= i < j < |questions| ==> questions[i].id != questions[j].id
    ensures r.Keys == set k | 0 <= k < |choices| :: questions[k].id
    ensures forall k :: 0 <= k < |choices| ==> r[questions[k].id] == choices[k]
  {
    if choices == [] then map[]
    else Recorded(questions, choices[..|choices| - 1])[questions[|choices| - 1].id := choices[|choices| - 1]]
  }

  class QuizPage {
    const store: ProfileProvider
    var currentQuestionIndex: nat
    var answers: Answers
    var skippingQuiz: bool

    ghost predicate Valid()
      reads this, store
    {
      store.Valid() && currentQuestionIndex < |QuizQuestions|
    }

    constructor (store: ProfileProvider)
      requires store.Valid()
      ensures Valid() && this.store == store
      ensures currentQuestionIndex == 0 && answers == map[] && !skippingQuiz
    {
      this.store := store;
      currentQuestionIndex := 0;
      answers := map[];
      skippingQuiz := false;
    }

    /**
     * `handleAnswer` as written: records the option, then either advances or,
     * on the last question, sets the level computed from the answers as they
     * were before this one was recorded.
     */
    method HandleAnswer(optionId: string)
      requires Valid()
      modifies this`currentQuestionIndex, this`answers, store
      ensures Valid() && store.user == old(store.user) && store.isLoading == old(store.isLoading)
      ensures store.storage == Saved(old(store.storage), store.user, store.profile)
      ensures answers == old(answers)[QuizQuestions[old(currentQuestionIndex)].id := optionId]
      ensures old(currentQuestionIndex) < |QuizQuestions| - 1 ==>
        currentQuestionIndex == old(currentQuestionIndex) + 1 &&
        store.profile == old(store.profile) && store.storage == old(store.storage)
      ensures old(currentQuestionIndex) == |QuizQuestions| - 1 ==>
        currentQuestionIndex == old(currentQuestionIndex) &&
        store.profile == (if old(store.profile).Some? then
          Some(old(store.profile).value.(proficiencyLevel := Some(MostCommon(Tally(QuizQuestions, old(answers)))))) else None)
    {
      var previous := answers;
      answers := answers[QuizQuestions[currentQuestionIndex].id := optionId];
      if currentQuestionIndex < |QuizQuestions| - 1 {
        currentQuestionIndex := currentQuestionIndex + 1;
      } else {
        var level := CalculateProficiencyLevel(QuizQuestions, previous);
        store.SetProficiencyLevel(level);
      }
    }

    /** `handleAnswer` with the tally taken over the answers including the one just recorded. */
    method HandleAnswerCountingLast(optionId: string)
      requires Valid()
      modifies this`currentQuestionIndex, this`answers, store
      ensures Valid() && store.user == old(store.user) && store.isLoading == old(store.isLoading)
      ensures store.storage == Saved(old(store.storage), store.user, store.profile)
      ensures answers == old(answers)[QuizQuestions[old(currentQuestionIndex)].id := optionId]
      ensures old(currentQuestionIndex) < |QuizQuestions| - 1 ==>
        currentQuestionIndex == old(currentQuestionIndex) + 1 &&
        store.profile == old(store.profile) && store.storage == old(store.storage)
      ensures old(currentQuestionIndex) == |QuizQuestions| - 1 ==>
        currentQuestionIndex == old(currentQuestionIndex) &&
        store.profile == (if old(store.profile).Some? then
          Some(old(store.profile).value.(proficiencyLevel := Some(MostCommon(Tally(QuizQuestions, answers))))) else None)
    {
      answers := answers[QuizQuestions[currentQuestionIndex].id := optionId];
      if currentQuestionIndex < |QuizQuestions| - 1 {
        currentQuestionIndex := currentQuestionIndex + 1;
      } else {
        var level := CalculateProficiencyLevel(QuizQuestions, answers);
        store.SetProficiencyLevel(level);
      }
    }

    method SkipQuiz()
      modifies this`skippingQuiz
      ensures skippingQuiz
    {
      skippingQuiz := true;
    }

    /** "Back to Quiz" leaves the skip view. */
    method BackToQuiz()
      modifies this`skippingQuiz
      ensures !skippingQuiz
    {
      skippingQuiz := false;
    }

    /** Skipping sets exactly the level the learner picked. */
    method ConfirmSkip(level: Level)
      requires Valid()
      modifies store
      ensures Valid() && store.user == old(store.user) && store.isLoading == old(store.isLoading)
      ensures store.storage == Saved(old(store.storage), store.user, store.profile)
      ensures store.profile == if old(store.profile).Some? then
        Some(old(store.profile).value.(proficiencyLevel := Some(level))) else None
    {
      store.SetProficiencyLevel(level);
    }
  }

  /**
   * Answering every question in turn with the corrected handler: the stored
   * level is the most common level among all the answers given.
   */
  method TakeQuiz(page: QuizPage, choices: seq<string>)
    requires page.Valid() && page.currentQuestionIndex == 0 && page.answers == map[]
    requires |choices| == |QuizQuestions|
    modifies page, page.store
    ensures page.Valid() && page.answers == Recorded(QuizQuestions, choices)
    ensures old(page.store.profile).Some? ==>
      page.store.profile == Some(old(page.store.profile).value.(proficiencyLevel := Some(MostCommon(Tally(QuizQuestions, Recorded(QuizQuestions, choices))))))
    ensures old(page.store.profile).None? ==> page.store.profile == None
  {
    var k := 0;
    while k < |choices| - 1
      invariant 0 <= k <= |choices| - 1
      invariant page.Valid() && page.currentQuestionIndex == k
      invariant page.answers == Recorded(QuizQuestions, choices[..k])
      invariant page.store.profile == old(page.store.profile)
    {
      page.HandleAnswerCountingLast(choices[k]);
      assert choices[..k + 1][..k] == choices[..k];
      k := k + 1;
    }
    page.HandleAnswerCountingLast(choices[k]);
    assert choices[..k + 1] == choices;
    assert choices[..k + 1][..k] == choices[..k];
  }

  /**
   * The stale tally in numbers: after "q1-a" (beginner) and "q2-c" (advanced),
   * a final "q3-c" (advanced) should make the learner advanced, but the
   * as-written tally, which omits it, yields beginner.
   */
  lemma StaleTallyExample()
    ensures MostCommon(Tally(QuizQuestions, Recorded(QuizQuestions, ["q1-a", "q2-c"]))) == Beginner
    ensures MostCommon(Tally(QuizQuestions, Recorded(QuizQuestions, ["q1-a", "q2-c", "q3-c"]))) == Advanced
  {
    RecordedExample();
    TallyExample();
  }

  lemma RecordedExample()
    ensures Recorded(QuizQuestions, ["q1-a", "q2-c"]) == map["q1" := "q1-a", "q2" := "q2-c"]
    ensures Recorded(QuizQuestions, ["q1-a", "q2-c", "q3-c"]) == map["q1" := "q1-a", "q2" := "q2-c", "q3" := "q3-c"]
  {
    assert ["q1-a"][..0] == [];
    assert ["q1-a", "q2-c"][..1] == ["q1-a"];
    assert ["q1-a", "q2-c", "q3-c"][..2] == ["q1-a", "q2-c"];
  }

  lemma VoteExample()
    ensures Vote(QuizQuestions, "q1", "q1-a") == Some(Beginner)
    ensures Vote(QuizQuestions, "q2", "q2-c") == Some(Advanced)
    ensures Vote(QuizQuestions, "q3", "q3-c") == Some(Advanced)
  {
    VoteTable(0, 0);
    VoteTable(1, 2);
    VoteTable(2, 2);
  }

  /** Recording q1-a into no answers, on any table where it votes beginner. */
  lemma TallyFirst(questions: seq<Question>)
    requires Vote(questions, "q1", "q1-a") == Some(Beginner)
    ensures Tally(questions, map["q1" := "q1-a"]) == Counts(1, 0, 0)
  {
    EmptyTally(questions);
    TallyInsert(questions, map[], "q1", "q1-a");
  }

  /** Then recording q2-c, on any table where it votes advanced. */
  lemma TallySecond(questions: seq<Question>)
    requires Vote(questions, "q2", "q2-c") == Some(Advanced)
    requires Tally(questions, map["q1" := "q1-a"]) == Counts(1, 0, 0)
    ensures Tally(questions, map["q1" := "q1-a", "q2" := "q2-c"]) == Counts(1, 0, 1)
  {
    TallyInsert(questions, map["q1" := "q1-a"], "q2", "q2-c");
  }

  /** Then recording q3-c, on any table where it votes advanced. */
  lemma TallyThird(questions: seq<Question>)
    requires Vote(questions, "q3", "q3-c") == Some(Advanced)
    requires Tally(questions, map["q1" := "q1-a", "q2" := "q2-c"]) == Counts(1, 0, 1)
    ensures Tally(questions, map["q1" := "q1-a", "q2" := "q2-c", "q3" := "q3-c"]) == Counts(1, 0, 2)
  {
    TallyInsert(questions, map["q1" := "q1-a", "q2" := "q2-c"], "q3", "q3-c");
  }

  lemma TallyExample()
    ensures Tally(QuizQuestions, map["q1" := "q1-a", "q2" := "q2-c"]) == Counts(1, 0, 1)
    ensures Tally(QuizQuestions, map["q1" := "q1-a", "q2" := "q2-c", "q3" := "q3-c"]) == Counts(1, 0, 2)
  {
    VoteExample();
    TallyFirst(QuizQuestions);
    TallySecond(QuizQuestions);
    TallyThird(QuizQuestions);
  }
}
