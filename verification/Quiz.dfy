/** The quiz store of `models/quiz.js`: questions, their answer options,
    submissions and dental procedures in four SQLite tables with
    AUTOINCREMENT ids, the one-time seeding of `initQuizTables`, and the
    create/update/query functions over them. */
module Quiz {
  import opened Common
  import opened Ordering
  import opened QuizSeed

  /** Column defaults the create functions apply through `||`. */
  const DefaultIcon := "⭐"
  const DefaultEmoji := "✓"

  /** `LIMIT`/`OFFSET` defaults of `getSubmissions`. */
  const SubmissionPageSize := 50

  datatype Question = Question(
    id: int, question: string, subtitle: Text, category: string, icon: Text, funFact: Text,
    isMultiSelect: Option<int>, sortOrder: int, isActive: int)

  datatype QuizOption = QuizOption(
    id: int, questionId: int, caption: string, emoji: Text, points: seq<Weight>, sortOrder: int)

  /** A quiz result with the visitor's contact details. `completedAt` is
      filled by the column default, `notificationSent` records whether the
      practice has been told about it. */
  datatype Submission = Submission(
    id: int, firstName: Text, email: Text, phone: Text, smileType: Text, smileTypeName: Text,
    recommendations: seq<string>, timeline: Text, primaryInterest: Text, source: Text,
    utmSource: Text, utmMedium: Text, utmCampaign: Text, ipAddress: Text, userAgent: Text,
    completedAt: string, notificationSent: int)

  datatype Procedure = Procedure(
    id: int, key: string, name: string, description: Text, timeframe: Text, icon: Text,
    colorGradient: Text, category: Text, sortOrder: int, isActive: int)

  /** The four tables, each with the next id its AUTOINCREMENT counter hands out. */
  datatype QuizDb = QuizDb(
    questions: seq<Question>, options: seq<QuizOption>, submissions: seq<Submission>,
    procedures: seq<Procedure>,
    nextQuestionId: int, nextOptionId: int, nextSubmissionId: int, nextProcedureId: int)

  /** Freshly created tables: empty, ids start at 1. */
  const EmptyDb := QuizDb([], [], [], [], 1, 1, 1, 1)

  /** Every stored id is below its table's counter, so the next id is unused. */
  predicate WellFormed(db: QuizDb) {
    && (forall i :: 0 <= i < |db.questions| ==> db.questions[i].id < db.nextQuestionId)
    && (forall i :: 0 <= i < |db.options| ==> db.options[i].id < db.nextOptionId)
    && (forall i :: 0 <= i < |db.submissions| ==> db.submissions[i].id < db.nextSubmissionId)
    && (forall i :: 0 <= i < |db.procedures| ==> db.procedures[i].id < db.nextProcedureId)
  }

  // ---------------------------------------------------------------------------
  // Inserts (one `INSERT` each; the id comes from the counter)

  function InsertQuestion(db: QuizDb, q: Question): (r: (QuizDb, int))
    ensures r.1 == db.nextQuestionId
    ensures r.0.questions == db.questions + [q.(id := r.1)]
    ensures r.0 == db.(questions := r.0.questions, nextQuestionId := db.nextQuestionId + 1)
  {
    var id := db.nextQuestionId;
    (db.(questions := db.questions + [q.(id := id)], nextQuestionId := id + 1), id)
  }

  function InsertOption(db: QuizDb, o: QuizOption): (r: QuizDb)
    ensures r.options == db.options + [o.(id := db.nextOptionId)]
    ensures r == db.(options := r.options, nextOptionId := db.nextOptionId + 1)
  {
    db.(options := db.options + [o.(id := db.nextOptionId)], nextOptionId := db.nextOptionId + 1)
  }

  function InsertProcedure(db: QuizDb, p: Procedure): (r: QuizDb)
    ensures r.procedures == db.procedures + [p.(id := db.nextProcedureId)]
    ensures r == db.(procedures := r.procedures, nextProcedureId := db.nextProcedureId + 1)
  {
    db.(procedures := db.procedures + [p.(id := db.nextProcedureId)], nextProcedureId := db.nextProcedureId + 1)
  }

  // ---------------------------------------------------------------------------
  // Seeding

  /** The row `seedDefaultQuestions` inserts for seed question `i`. */
  function SeededQuestion(cat: Catalogue, i: nat, id: int): Question
    requires i < QuestionCount
  {
    var w := cat.wording(i);
    Question(id, w.question, Some(w.subtitle), cat.category(i), Some(w.icon), Some(w.funFact),
             Some(cat.multiSelect(i)), i, 1)
  }

  /** The option rows of seed question `i`, inserted as one block. */
  function OptionBlock(cat: Catalogue, i: nat, questionId: int, firstId: int): (r: seq<QuizOption>)
    requires i < QuestionCount
    ensures |r| == |cat.weights(i)|
    ensures forall j :: 0 <= j < |r| ==>
      r[j] == QuizOption(firstId + j, questionId, cat.caption(i, j).0, Some(cat.caption(i, j).1), cat.weights(i)[j], j)
  {
    seq(|cat.weights(i)|, j requires 0 <= j < |cat.weights(i)| =>
      QuizOption(firstId + j, questionId, cat.caption(i, j).0, Some(cat.caption(i, j).1), cat.weights(i)[j], j))
  }

  /** The questions seeded from index `k` on, their ids counting up from `firstId`. */
  function SeededQuestions(cat: Catalogue, k: nat, firstId: int): (r: seq<Question>)
    requires k <= QuestionCount
    ensures |r| == QuestionCount - k
    ensures forall m :: 0 <= m < |r| ==> r[m] == SeededQuestion(cat, k + m, firstId + m)
  {
    seq(QuestionCount - k, m requires 0 <= m < QuestionCount - k => SeededQuestion(cat, k + m, firstId + m))
  }

  /** The option blocks of the questions seeded from index `k` on, in order. */
  function SeededOptions(cat: Catalogue, k: nat, questionId: int, optionId: int): seq<QuizOption>
    requires k <= QuestionCount
    decreases QuestionCount - k
  {
    if k == QuestionCount then []
    else
      OptionBlock(cat, k, questionId, optionId)
        + SeededOptions(cat, k + 1, questionId + 1, optionId + |cat.weights(k)|)
  }

  /** The inner `q.options.forEach`: options `j..` of seed question `i`,
      each with `sort_order` = its index. */
  function SeedOptionsFrom(db: QuizDb, cat: Catalogue, i: nat, questionId: int, j: nat): (r: QuizDb)
    requires i < QuestionCount && j <= |cat.weights(i)|
    ensures r.options == db.options + OptionBlock(cat, i, questionId, db.nextOptionId - j)[j..]
    ensures r == db.(options := r.options, nextOptionId := db.nextOptionId + |cat.weights(i)| - j)
    decreases |cat.weights(i)| - j
  {
    if j == |cat.weights(i)| then db
    else
      var block := OptionBlock(cat, i, questionId, db.nextOptionId - j);
      var db1 := InsertOption(db, QuizOption(0, questionId, cat.caption(i, j).0, Some(cat.caption(i, j).1),
                                             cat.weights(i)[j], j));
      assert db1.options == db.options + [block[j]];
      assert db1.nextOptionId - (j + 1) == db.nextOptionId - j;
      var r := SeedOptionsFrom(db1, cat, i, questionId, j + 1);
      SliceStep(db.options, block, j);
      r
  }

  /** Appending element `j` and then the rest of `block` appends `block[j..]`. */
  lemma SliceStep<T>(xs: seq<T>, block: seq<T>, j: nat)
    requires j < |block|
    ensures (xs + [block[j]]) + block[j + 1..] == xs + block[j..]
  {
    assert block[j..] == [block[j]] + block[j + 1..];
  }

  /** The outer `questions.forEach` of `seedDefaultQuestions`, from index `k`:
      each question with `sort_order` = its index, followed by its options. */
  function SeedQuestionsFrom(db: QuizDb, cat: Catalogue, k: nat): (r: QuizDb)
    requires k <= QuestionCount
    ensures r.questions == db.questions + SeededQuestions(cat, k, db.nextQuestionId)
    ensures r.options == db.options + SeededOptions(cat, k, db.nextQuestionId, db.nextOptionId)
    ensures r.nextQuestionId == db.nextQuestionId + (QuestionCount - k)
    ensures r.nextOptionId == db.nextOptionId + |SeededOptions(cat, k, db.nextQuestionId, db.nextOptionId)|
    ensures r.submissions == db.submissions && r.nextSubmissionId == db.nextSubmissionId
    ensures r.procedures == db.procedures && r.nextProcedureId == db.nextProcedureId
    decreases QuestionCount - k
  {
    if k == QuestionCount then db
    else
      var db1 := SeedOneQuestion(db, cat, k);
      var r := SeedQuestionsFrom(db1, cat, k + 1);
      QuestionsStep(db.questions, db1.questions, cat, k, db.nextQuestionId, db1.nextQuestionId);
      OptionsStep(db.options, db1.options, cat, k, db.nextQuestionId, db.nextOptionId, db1.nextQuestionId, db1.nextOptionId);
      r
  }

  /** Seeding question `k` and then the rest seeds the same questions as
      seeding from `k` at once. */
  lemma QuestionsStep(qs: seq<Question>, qs1: seq<Question>, cat: Catalogue, k: nat, id: int, id1: int)
    requires k < QuestionCount && qs1 == qs + [SeededQuestion(cat, k, id)] && id1 == id + 1
    ensures qs1 + SeededQuestions(cat, k + 1, id1) == qs + SeededQuestions(cat, k, id)
  {
    SeededQuestionsSplit(cat, k, id);
    AppendAssoc(qs, [SeededQuestion(cat, k, id)], SeededQuestions(cat, k + 1, id1));
  }

  /** The same for the options: question `k`'s block, then the rest. */
  lemma OptionsStep(os: seq<QuizOption>, os1: seq<QuizOption>, cat: Catalogue, k: nat,
                    questionId: int, optionId: int, questionId1: int, optionId1: int)
    requires k < QuestionCount && os1 == os + OptionBlock(cat, k, questionId, optionId)
    requires questionId1 == questionId + 1 && optionId1 == optionId + |cat.weights(k)|
    ensures os1 + SeededOptions(cat, k + 1, questionId1, optionId1) == os + SeededOptions(cat, k, questionId, optionId)
  {
    AppendAssoc(os, OptionBlock(cat, k, questionId, optionId), SeededOptions(cat, k + 1, questionId1, optionId1));
  }

  /** One step of the outer loop: question `k`, then its options. */
  function SeedOneQuestion(db: QuizDb, cat: Catalogue, k: nat): (r: QuizDb)
    requires k < QuestionCount
    ensures r.questions == db.questions + [SeededQuestion(cat, k, db.nextQuestionId)]
    ensures r.options == db.options + OptionBlock(cat, k, db.nextQuestionId, db.nextOptionId)
    ensures r == db.(questions := r.questions, options := r.options, nextQuestionId := db.nextQuestionId + 1,
                     nextOptionId := db.nextOptionId + |cat.weights(k)|)
  {
    var id := db.nextQuestionId;
    var db1 := InsertQuestion(db, SeededQuestion(cat, k, 0)).0;
    assert db1.questions == db.questions + [SeededQuestion(cat, k, id)];
    var block := OptionBlock(cat, k, id, db.nextOptionId);
    assert block[0..] == block;
    SeedOptionsFrom(db1, cat, k, id, 0)
  }

  /** The row `seedDefaultProcedures` inserts for seed procedure `i`. */
  function SeededProcedure(cat: Catalogue, i: nat, id: int): Procedure
    requires i < ProcedureCount
  {
    var b := cat.blurb(i);
    Procedure(id, KeyName(cat.procedureKey(i)), b.name, Some(b.description), Some(b.timeframe), Some(b.icon),
              Some(b.colorGradient), Some(cat.procedureCategory(i)), i, 1)
  }

  function SeededProcedures(cat: Catalogue, k: nat, firstId: int): (r: seq<Procedure>)
    requires k <= ProcedureCount
    ensures |r| == ProcedureCount - k
    ensures forall m :: 0 <= m < |r| ==> r[m] == SeededProcedure(cat, k + m, firstId + m)
  {
    seq(ProcedureCount - k, m requires 0 <= m < ProcedureCount - k => SeededProcedure(cat, k + m, firstId + m))
  }

  /** The `procedures.forEach` of `seedDefaultProcedures`, from index `k`. */
  function SeedProceduresFrom(db: QuizDb, cat: Catalogue, k: nat): (r: QuizDb)
    requires k <= ProcedureCount
    ensures r.procedures == db.procedures + SeededProcedures(cat, k, db.nextProcedureId)
    ensures r == db.(procedures := r.procedures, nextProcedureId := db.nextProcedureId + ProcedureCount - k)
    decreases ProcedureCount - k
  {
    if k == ProcedureCount then db
    else
      var db1 := InsertProcedure(db, SeededProcedure(cat, k, 0));
      ProceduresStep(db, cat, k);
      SeedProceduresFrom(db1, cat, k + 1)
  }

  /** One insert followed by the rest of the procedure seeds. */
  lemma ProceduresStep(db: QuizDb, cat: Catalogue, k: nat)
    requires k < ProcedureCount
    ensures InsertProcedure(db, SeededProcedure(cat, k, 0)).procedures + SeededProcedures(cat, k + 1, db.nextProcedureId + 1)
            == db.procedures + SeededProcedures(cat, k, db.nextProcedureId)
  {
    var p := SeededProcedure(cat, k, db.nextProcedureId);
    assert SeededProcedure(cat, k, 0).(id := db.nextProcedureId) == p;
    assert InsertProcedure(db, SeededProcedure(cat, k, 0)).procedures == db.procedures + [p];
    SeededProceduresSplit(cat, k, db.nextProcedureId);
    AppendAssoc(db.procedures, [p], SeededProcedures(cat, k + 1, db.nextProcedureId + 1));
  }

  lemma AppendAssoc<T>(a: seq<T>, b: seq<T>, c: seq<T>)
    ensures (a + b) + c == a + (b + c)
  {
  }

  lemma SeededQuestionsSplit(cat: Catalogue, k: nat, firstId: int)
    requires k < QuestionCount
    ensures SeededQuestions(cat, k, firstId) == [SeededQuestion(cat, k, firstId)] + SeededQuestions(cat, k + 1, firstId + 1)
  {
    assert forall m :: 1 <= m < QuestionCount - k ==> SeededQuestions(cat, k, firstId)[m] == SeededQuestions(cat, k + 1, firstId + 1)[m - 1];
  }

  lemma SeededProceduresSplit(cat: Catalogue, k: nat, firstId: int)
    requires k < ProcedureCount
    ensures SeededProcedures(cat, k, firstId) == [SeededProcedure(cat, k, firstId)] + SeededProcedures(cat, k + 1, firstId + 1)
  {
    assert forall m :: 1 <= m < ProcedureCount - k ==> SeededProcedures(cat, k, firstId)[m] == SeededProcedures(cat, k + 1, firstId + 1)[m - 1];
  }

  /** The question half of `initQuizTables`: seeds only an empty table. */
  function InitQuestions(db: QuizDb, cat: Catalogue): (r: QuizDb)
    ensures |db.questions| == 0 ==> r.questions == SeededQuestions(cat, 0, db.nextQuestionId)
    ensures |db.questions| == 0 ==> r.options == db.options + SeededOptions(cat, 0, db.nextQuestionId, db.nextOptionId)
    ensures |db.questions| != 0 ==> r == db
    ensures r.submissions == db.submissions && r.procedures == db.procedures
    ensures r.nextProcedureId == db.nextProcedureId
  {
    if |db.questions| == 0 then
      var r := SeedQuestionsFrom(db, cat, 0);
      assert r.questions == SeededQuestions(cat, 0, db.nextQuestionId) by {
        assert db.questions + SeededQuestions(cat, 0, db.nextQuestionId) == SeededQuestions(cat, 0, db.nextQuestionId);
      }
      r
    else db
  }

  /** The procedure half of `initQuizTables`: seeds only an empty table. */
  function InitProcedures(db: QuizDb, cat: Catalogue): (r: QuizDb)
    ensures |db.procedures| == 0 ==> r.procedures == SeededProcedures(cat, 0, db.nextProcedureId)
    ensures |db.procedures| == 0 ==> r == db.(procedures := r.procedures, nextProcedureId := r.nextProcedureId)
    ensures |db.procedures| != 0 ==> r == db
  {
    if |db.procedures| == 0 then
      var r := SeedProceduresFrom(db, cat, 0);
      assert db.procedures + SeededProcedures(cat, 0, db.nextProcedureId) == SeededProcedures(cat, 0, db.nextProcedureId);
      r
    else db
  }

  /** `initQuizTables`: each catalogue is seeded only into an empty table.
      `initQuizTables` in quiz.js seeds `SeedCatalogue`. */
  function InitQuizTables(db: QuizDb, cat: Catalogue): (r: QuizDb)
    ensures |db.questions| == 0 ==> r.questions == SeededQuestions(cat, 0, db.nextQuestionId)
    ensures |db.questions| == 0 ==> r.options == db.options + SeededOptions(cat, 0, db.nextQuestionId, db.nextOptionId)
    ensures |db.questions| != 0 ==> r.questions == db.questions && r.options == db.options
    ensures |db.procedures| == 0 ==> r.procedures == SeededProcedures(cat, 0, db.nextProcedureId)
    ensures |db.procedures| != 0 ==> r.procedures == db.procedures
    ensures r.submissions == db.submissions
  {
    InitProcedures(InitQuestions(db, cat), cat)
  }

  /** Running the initialisation again changes nothing: seeding leaves both
      catalogues nonempty, so the second run seeds neither. */
  lemma InitIdempotent(db: QuizDb, cat: Catalogue)
    ensures InitQuizTables(InitQuizTables(db, cat), cat) == InitQuizTables(db, cat)
  {
    var r := InitQuizTables(db, cat);
    assert |r.questions| > 0;
    assert |r.procedures| > 0;
  }

  /** Seeded question `i` keeps its catalogue position as `sort_order`, and
      the ids count up from the counter. */
  lemma SeededQuestionsOrdered(cat: Catalogue, firstId: int)
    ensures forall i :: 0 <= i < QuestionCount ==>
      SeededQuestions(cat, 0, firstId)[i].sortOrder == i && SeededQuestions(cat, 0, firstId)[i].id == firstId + i
  {
  }

  /** Of the seeded questions only the "concerns" question is multi-select. */
  lemma SeededMultiSelect(firstId: int)
    ensures forall i :: 0 <= i < QuestionCount ==>
      var q := SeededQuestions(SeedCatalogue, 0, firstId)[i];
      q.isMultiSelect == Some(1) <==> q.category == "concerns"
  {
    SeedQuestionsShape();
    forall i | 0 <= i < QuestionCount
      ensures SeededQuestions(SeedCatalogue, 0, firstId)[i].isMultiSelect == Some(MultiSelectFlag(i))
      ensures SeededQuestions(SeedCatalogue, 0, firstId)[i].category == QuestionCategory(i)
    {
    }
  }

  /** Option `o`, seeded from index `k` on with question ids counting from
      `questionId`, carries the point map of the catalogue answer at its
      `sort_order` position of the question it belongs to. */
  predicate FromCatalogue(cat: Catalogue, k: nat, questionId: int, o: QuizOption) {
    var i := o.questionId - questionId + k;
    k <= i < QuestionCount && 0 <= o.sortOrder < |cat.weights(i)| && o.points == cat.weights(i)[o.sortOrder]
  }

  /** Every seeded option belongs to one of the seeded questions, and carries
      the point map of the catalogue answer at its `sort_order` position. */
  lemma {:induction false} SeededOptionsMatchCatalogue(cat: Catalogue, k: nat, questionId: int, optionId: int)
    requires k <= QuestionCount
    decreases QuestionCount - k
    ensures forall n :: 0 <= n < |SeededOptions(cat, k, questionId, optionId)| ==>
      FromCatalogue(cat, k, questionId, SeededOptions(cat, k, questionId, optionId)[n])
  {
    if k < QuestionCount {
      var block := OptionBlock(cat, k, questionId, optionId);
      var rest := SeededOptions(cat, k + 1, questionId + 1, optionId + |cat.weights(k)|);
      SeededOptionsMatchCatalogue(cat, k + 1, questionId + 1, optionId + |cat.weights(k)|);
      forall n | 0 <= n < |block + rest|
        ensures FromCatalogue(cat, k, questionId, (block + rest)[n])
      {
        if n < |block| {
          assert (block + rest)[n] == block[n];
        } else {
          assert (block + rest)[n] == rest[n - |block|];
          assert FromCatalogue(cat, k + 1, questionId + 1, rest[n - |block|]);
        }
      }
    }
  }

  /** Hence seeding copies only positive weights when the catalogue has
      only positive weights, as the quiz.js catalogue does. */
  lemma SeededPointsPositive(db: QuizDb, cat: Catalogue)
    requires |db.questions| == 0 && PositiveWeights(cat)
    ensures forall n, m ::
      |db.options| <= n < |InitQuizTables(db, cat).options| && 0 <= m < |InitQuizTables(db, cat).options[n].points|
      ==> InitQuizTables(db, cat).options[n].points[m].points > 0
  {
    var seeded := SeededOptions(cat, 0, db.nextQuestionId, db.nextOptionId);
    assert InitQuizTables(db, cat).options == db.options + seeded;
    SeededOptionsPositive(cat, 0, db.nextQuestionId, db.nextOptionId);
    AppendedPositive(db.options, seeded);
  }

  lemma AppendedPositive(a: seq<QuizOption>, b: seq<QuizOption>)
    requires forall n, m :: 0 <= n < |b| && 0 <= m < |b[n].points| ==> b[n].points[m].points > 0
    ensures forall n, m :: |a| <= n < |a + b| && 0 <= m < |(a + b)[n].points| ==> (a + b)[n].points[m].points > 0
  {
    forall n, m | |a| <= n < |a + b| && 0 <= m < |(a + b)[n].points|
      ensures (a + b)[n].points[m].points > 0
    {
      assert (a + b)[n] == b[n - |a|];
    }
  }

  lemma SeededOptionsPositive(cat: Catalogue, k: nat, questionId: int, optionId: int)
    requires k <= QuestionCount && PositiveWeights(cat)
    ensures forall n, m ::
      0 <= n < |SeededOptions(cat, k, questionId, optionId)| && 0 <= m < |SeededOptions(cat, k, questionId, optionId)[n].points|
      ==> SeededOptions(cat, k, questionId, optionId)[n].points[m].points > 0
  {
    SeededOptionsMatchCatalogue(cat, k, questionId, optionId);
  }

  /** The seeded procedures have unique keys, as the `UNIQUE` constraint on
      `key` requires of the inserts. */
  lemma SeededKeysUnique(firstId: int)
    ensures forall i, j :: 0 <= i < j < ProcedureCount ==>
      SeededProcedures(SeedCatalogue, 0, firstId)[i].key != SeededProcedures(SeedCatalogue, 0, firstId)[j].key
  {
    SeedProceduresShape();
    forall i, j | 0 <= i < j < ProcedureCount
      ensures SeededProcedures(SeedCatalogue, 0, firstId)[i].key != SeededProcedures(SeedCatalogue, 0, firstId)[j].key
    {
      KeyNameInjective(ProcedureKey(i), ProcedureKey(j));
    }
  }

  // ---------------------------------------------------------------------------
  // Questions

  datatype QuestionInput = QuestionInput(
    question: Text, subtitle: Text, category: Text, icon: Text, funFact: Text,
    isMultiSelect: Option<int>, sortOrder: Option<int>)

  /** `createQuestion`: `question` and `category` are NOT NULL, so the insert
      fails (`None`) without them; icon, multi-select flag and sort order fall
      back to their defaults. Returns the tables and the new id. */
  function CreateQuestion(db: QuizDb, d: QuestionInput): (r: Option<(QuizDb, int)>)
    ensures r.None? <==> d.question.None? || d.category.None?
    ensures r.Some? ==> r.value.1 == db.nextQuestionId && r.value.0.nextQuestionId == db.nextQuestionId + 1
    ensures r.Some? ==>
      r.value.0.questions == db.questions + [Question(r.value.1, d.question.value, d.subtitle, d.category.value, Some(Or(d.icon, DefaultIcon)),
                                                  d.funFact, Some(OrInt(d.isMultiSelect, 0)), OrInt(d.sortOrder, 0), 1)]
    ensures r.Some? ==> r.value.0.options == db.options && r.value.0.submissions == db.submissions
  {
    if d.question.None? || d.category.None? then None
    else
      Some(InsertQuestion(db, Question(0, d.question.value, d.subtitle, d.category.value, Some(Or(d.icon, DefaultIcon)),
                                      d.funFact, Some(OrInt(d.isMultiSelect, 0)), OrInt(d.sortOrder, 0), 1)))
  }

  /** A question created without icon, flag or order is an active,
      single-answer question at order 0 with the star icon. */
  lemma CreateQuestionDefaults(db: QuizDb, d: QuestionInput)
    requires d.question.Some? && d.category.Some?
    requires d.icon.None? && d.isMultiSelect.None? && d.sortOrder.None?
    ensures var q := Last(CreateQuestion(db, d).value.0.questions);
      q.icon == Some("⭐") && q.isMultiSelect == Some(0) && q.sortOrder == 0 && q.isActive == 1
  {
  }

  function Last<T>(s: seq<T>): T
    requires |s| > 0
  {
    s[|s| - 1]
  }

  predicate HasQuestion(db: QuizDb, id: int) {
    exists i :: 0 <= i < |db.questions| && db.questions[i].id == id
  }

  /** `getQuestionById`: the row with that id, if any. */
  function GetQuestionById(questions: seq<Question>, id: int): (r: Option<Question>)
    ensures r.None? <==> forall i :: 0 <= i < |questions| ==> questions[i].id != id
    ensures r.Some? ==> r.value in questions && r.value.id == id
  {
    if |questions| == 0 then None
    else if questions[0].id == id then Some(questions[0])
    else
      var r := GetQuestionById(questions[1..], id);
      assert forall i :: 1 <= i < |questions| ==> questions[i] == questions[1..][i - 1];
      r
  }

  /** A created question is found under the id it was given, and the tables
      stay well formed. */
  lemma CreateThenGetQuestion(db: QuizDb, d: QuestionInput)
    requires WellFormed(db) && d.question.Some? && d.category.Some?
    ensures var (db1, id) := CreateQuestion(db, d).value;
      WellFormed(db1) && GetQuestionById(db1.questions, id) == Some(Last(db1.questions))
  {
    var (db1, id) := CreateQuestion(db, d).value;
    assert GetQuestionById(db.questions, id).None?;
    GetByIdAppend(db.questions, Last(db1.questions), id);
  }

  lemma {:induction false} GetByIdAppend(questions: seq<Question>, q: Question, id: int)
    requires GetQuestionById(questions, id).None? && q.id == id
    ensures GetQuestionById(questions + [q], id) == Some(q)
  {
    if |questions| > 0 {
      assert (questions + [q])[1..] == questions[1..] + [q];
      GetByIdAppend(questions[1..], q, id);
    }
  }

  /** `updateQuestion`: every listed column of the rows with that id is
      overwritten with the raw value; a missing `question` or `category` on
      an existing row violates NOT NULL and the update fails. */
  function UpdateQuestion(db: QuizDb, id: int, d: QuestionInput, sortOrder: int): (r: Option<QuizDb>)
    ensures r.None? <==> (d.question.None? || d.category.None?) && HasQuestion(db, id)
    ensures r.Some? ==> r.value == db.(questions := r.value.questions) && |r.value.questions| == |db.questions|
    ensures r.Some? ==> forall i :: 0 <= i < |db.questions| && db.questions[i].id != id ==> r.value.questions[i] == db.questions[i]
    ensures r.Some? ==> forall i :: 0 <= i < |db.questions| && db.questions[i].id == id ==>
      var q := r.value.questions[i];
      && Some(q.question) == d.question && Some(q.category) == d.category && q.subtitle == d.subtitle
      && q.icon == d.icon && q.funFact == d.funFact && q.isMultiSelect == d.isMultiSelect
      && q.sortOrder == sortOrder && q.id == id && q.isActive == db.questions[i].isActive
  {
    if !HasQuestion(db, id) then
      assert forall i :: 0 <= i < |db.questions| ==> db.questions[i].id != id;
      Some(db)
    else if d.question.None? || d.category.None? then None
    else
      Some(db.(questions := seq(|db.questions|, i requires 0 <= i < |db.questions| =>
        if db.questions[i].id == id then
          db.questions[i].(question := d.question.value, subtitle := d.subtitle, category := d.category.value,
                           icon := d.icon, funFact := d.funFact, isMultiSelect := d.isMultiSelect, sortOrder := sortOrder)
        else db.questions[i])))
  }

  function DeleteQuestion(db: QuizDb, id: int): (r: QuizDb)
    ensures r == db.(questions := r.questions)
    ensures forall q :: multiset(r.questions)[q] == if q.id != id then multiset(db.questions)[q] else 0
  {
    var r := Filter(db.questions, (q: Question) => q.id != id);
    forall q ensures multiset(r)[q] == if q.id != id then multiset(db.questions)[q] else 0 {
      FilterMultiplicity(db.questions, (q: Question) => q.id != id, q);
    }
    db.(questions := r)
  }

  function QuestionOrder(q: Question): int { q.sortOrder }

  predicate IsActiveQuestion(q: Question) { q.isActive == 1 }

  /** `getAllQuestions`: the active questions by ascending `sort_order`. */
  function GetAllQuestions(db: QuizDb): (r: seq<Question>)
    ensures Ascending(r, QuestionOrder)
    ensures forall q :: multiset(r)[q] == if IsActiveQuestion(q) then multiset(db.questions)[q] else 0
  {
    var r := OrderByKey(Filter(db.questions, IsActiveQuestion), QuestionOrder);
    forall q ensures multiset(r)[q] == if IsActiveQuestion(q) then multiset(db.questions)[q] else 0 {
      FilterMultiplicity(db.questions, IsActiveQuestion, q);
    }
    r
  }

  // ---------------------------------------------------------------------------
  // Options

  datatype OptionInput = OptionInput(
    questionId: Option<int>, caption: Text, emoji: Text, points: Option<seq<Weight>>, sortOrder: Option<int>)

  /** `createOption`: `question_id` and `label` are NOT NULL; the emoji falls
      back to a check mark, a missing point map to `{}`, the order to 0. */
  function CreateOption(db: QuizDb, d: OptionInput): (r: Option<QuizDb>)
    ensures r.None? <==> d.questionId.None? || d.caption.None?
    ensures r.Some? ==> r.value == db.(options := r.value.options, nextOptionId := db.nextOptionId + 1)
    ensures r.Some? ==>
      r.value.options == db.options + [QuizOption(db.nextOptionId, d.questionId.value, d.caption.value,
                                                  Some(Or(d.emoji, DefaultEmoji)), d.points.GetOr([]), OrInt(d.sortOrder, 0))]
  {
    if d.questionId.None? || d.caption.None? then None
    else
      Some(InsertOption(db, QuizOption(0, d.questionId.value, d.caption.value, Some(Or(d.emoji, DefaultEmoji)),
                                       d.points.GetOr([]), OrInt(d.sortOrder, 0))))
  }

  /** An option created with only its question and label shows a check mark,
      awards no points and sorts first. */
  lemma CreateOptionDefaults(db: QuizDb, d: OptionInput)
    requires d.questionId.Some? && d.caption.Some?
    requires d.emoji.None? && d.points.None? && d.sortOrder.None?
    ensures var o := Last(CreateOption(db, d).value.options);
      o.emoji == Some("✓") && o.points == [] && o.sortOrder == 0
  {
  }

  predicate HasOption(db: QuizDb, id: int) {
    exists i :: 0 <= i < |db.options| && db.options[i].id == id
  }

  /** `updateOption`: label (NOT NULL), emoji, points (`|| {}`) and order of
      the rows with that id; the question an option belongs to never changes. */
  function UpdateOption(db: QuizDb, id: int, caption: Text, emoji: Text, points: Option<seq<Weight>>, sortOrder: int): (r: Option<QuizDb>)
    ensures r.None? <==> caption.None? && HasOption(db, id)
    ensures r.Some? ==> r.value == db.(options := r.value.options) && |r.value.options| == |db.options|
    ensures r.Some? ==> forall i :: 0 <= i < |db.options| && db.options[i].id != id ==> r.value.options[i] == db.options[i]
    ensures r.Some? ==> forall i :: 0 <= i < |db.options| && db.options[i].id == id ==>
      var o := r.value.options[i];
      && Some(o.caption) == caption && o.emoji == emoji && o.points == points.GetOr([]) && o.sortOrder == sortOrder
      && o.id == id && o.questionId == db.options[i].questionId
  {
    if !HasOption(db, id) then
      assert forall i :: 0 <= i < |db.options| ==> db.options[i].id != id;
      Some(db)
    else if caption.None? then None
    else
      Some(db.(options := seq(|db.options|, i requires 0 <= i < |db.options| =>
        if db.options[i].id == id then
          db.options[i].(caption := caption.value, emoji := emoji, points := points.GetOr([]), sortOrder := sortOrder)
        else db.options[i])))
  }

  function BelongsTo(questionId: int): QuizOption -> bool {
    (o: QuizOption) => o.questionId == questionId
  }

  function OptionOrder(o: QuizOption): int { o.sortOrder }

  /** `os` holds every option of the question, as often as the table does,
      and no other, by ascending `sort_order`. */
  ghost predicate OptionsOf(db: QuizDb, questionId: int, os: seq<QuizOption>) {
    && Ascending(os, OptionOrder)
    && forall o :: multiset(os)[o] == if o.questionId == questionId then multiset(db.options)[o] else 0
  }

  /** `getOptionsByQuestionId`: that question's options by ascending `sort_order`. */
  function GetOptionsByQuestionId(db: QuizDb, questionId: int): (r: seq<QuizOption>)
    ensures Ascending(r, OptionOrder)
    ensures forall o :: multiset(r)[o] == if o.questionId == questionId then multiset(db.options)[o] else 0
    ensures OptionsOf(db, questionId, r)
  {
    var r := OrderByKey(Filter(db.options, BelongsTo(questionId)), OptionOrder);
    forall o ensures multiset(r)[o] == if o.questionId == questionId then multiset(db.options)[o] else 0 {
      FilterMultiplicity(db.options, BelongsTo(questionId), o);
    }
    r
  }

  /** `getQuestionsWithOptions`: each active question, in order, with all of
      its options by ascending `sort_order`. */
  function GetQuestionsWithOptions(db: QuizDb): (r: seq<(Question, seq<QuizOption>)>)
    ensures |r| == |GetAllQuestions(db)|
    ensures forall i :: 0 <= i < |r| ==> r[i].0 == GetAllQuestions(db)[i]
    ensures forall i :: 0 <= i < |r| ==> OptionsOf(db, r[i].0.id, r[i].1)
    ensures forall i, o :: 0 <= i < |r| && o in r[i].1 ==> o.questionId == r[i].0.id && o in db.options
  {
    var qs := GetAllQuestions(db);
    seq(|qs|, i requires 0 <= i < |qs| => (qs[i], GetOptionsByQuestionId(db, qs[i].id)))
  }

  function DeleteOption(db: QuizDb, id: int): (r: QuizDb)
    ensures r == db.(options := r.options)
    ensures forall o :: multiset(r.options)[o] == if o.id != id then multiset(db.options)[o] else 0
  {
    var r := Filter(db.options, (o: QuizOption) => o.id != id);
    forall o ensures multiset(r)[o] == if o.id != id then multiset(db.options)[o] else 0 {
      FilterMultiplicity(db.options, (o: QuizOption) => o.id != id, o);
    }
    db.(options := r)
  }

  /** `deleteOptionsByQuestionId`: afterwards the question has no options. */
  function DeleteOptionsByQuestionId(db: QuizDb, questionId: int): (r: QuizDb)
    ensures r == db.(options := r.options)
    ensures forall o :: multiset(r.options)[o] == if o.questionId != questionId then multiset(db.options)[o] else 0
    ensures GetOptionsByQuestionId(r, questionId) == []
  {
    var r := Filter(db.options, (o: QuizOption) => o.questionId != questionId);
    forall o ensures multiset(r)[o] == if o.questionId != questionId then multiset(db.options)[o] else 0 {
      FilterMultiplicity(db.options, (o: QuizOption) => o.questionId != questionId, o);
    }
    var left := GetOptionsByQuestionId(db.(options := r), questionId);
    assert forall o :: o !in multiset(left);
    assert multiset(left) == multiset{};
    db.(options := r)
  }

  // ---------------------------------------------------------------------------
  // Submissions

  datatype SubmissionInput = SubmissionInput(
    firstName: Text, email: Text, phone: Text, smileType: Text, smileTypeName: Text,
    recommendations: Option<seq<string>>, timeline: Text, primaryInterest: Text, source: Text,
    utmSource: Text, utmMedium: Text, utmCampaign: Text, ipAddress: Text, userAgent: Text)

  /** `createSubmission`, at time `now` (the `completed_at` default): the
      fields are stored as given, missing recommendations as `[]`, and the
      practice has not been notified yet. */
  function CreateSubmission(db: QuizDb, d: SubmissionInput, now: string): (r: (QuizDb, int))
    ensures r.1 == db.nextSubmissionId
    ensures r.0 == db.(submissions := r.0.submissions, nextSubmissionId := db.nextSubmissionId + 1)
    ensures |r.0.submissions| == |db.submissions| + 1 && r.0.submissions[..|db.submissions|] == db.submissions
    ensures var s := Last(r.0.submissions);
      && s.id == r.1 && s.notificationSent == 0 && s.completedAt == now
      && s.recommendations == d.recommendations.GetOr([])
      && s.email == d.email && s.timeline == d.timeline && s.primaryInterest == d.primaryInterest
      && s.smileTypeName == d.smileTypeName && s.firstName == d.firstName && s.phone == d.phone
      && s.smileType == d.smileType && s.source == d.source
      && s.utmSource == d.utmSource && s.utmMedium == d.utmMedium && s.utmCampaign == d.utmCampaign
      && s.ipAddress == d.ipAddress && s.userAgent == d.userAgent
  {
    var id := db.nextSubmissionId;
    var s := Submission(id, d.firstName, d.email, d.phone, d.smileType, d.smileTypeName,
                        d.recommendations.GetOr([]), d.timeline, d.primaryInterest, d.source,
                        d.utmSource, d.utmMedium, d.utmCampaign, d.ipAddress, d.userAgent, now, 0);
    (db.(submissions := db.submissions + [s], nextSubmissionId := id + 1), id)
  }

  /** `markNotificationSent`: sets the flag of the rows with that id and
      touches nothing else. */
  function MarkNotificationSent(db: QuizDb, id: int): (r: QuizDb)
    ensures r == db.(submissions := r.submissions) && |r.submissions| == |db.submissions|
    ensures forall i :: 0 <= i < |db.submissions| ==>
      r.submissions[i] == if db.submissions[i].id == id then db.submissions[i].(notificationSent := 1) else db.submissions[i]
  {
    db.(submissions := seq(|db.submissions|, i requires 0 <= i < |db.submissions| =>
      if db.submissions[i].id == id then db.submissions[i].(notificationSent := 1) else db.submissions[i]))
  }

  predicate Notified(s: Submission) { s.notificationSent == 1 }

  /** The flag is one-way: marking never clears a notified row, marking
      twice is marking once, and a new submission leaves the existing
      rows' flags as they were. */
  lemma NotificationOneWay(db: QuizDb, id: int, other: int, d: SubmissionInput, now: string)
    ensures forall i :: 0 <= i < |db.submissions| && Notified(db.submissions[i]) ==>
      Notified(MarkNotificationSent(db, other).submissions[i])
    ensures forall i :: 0 <= i < |db.submissions| && db.submissions[i].id == id ==>
      Notified(MarkNotificationSent(db, id).submissions[i])
    ensures MarkNotificationSent(MarkNotificationSent(db, id), id) == MarkNotificationSent(db, id)
    ensures CreateSubmission(db, d, now).0.submissions[..|db.submissions|] == db.submissions
  {
  }

  function CompletedAt(s: Submission): Text { Some(s.completedAt) }

  /** `getSubmissions(limit, offset)`: newest first, one page of the table.
      The defaults are 50 and 0. */
  function GetSubmissions(db: QuizDb, limit: Option<nat>, offset: Option<nat>): (r: seq<Submission>)
    ensures NewestFirst(r, CompletedAt)
    ensures var n := |db.submissions|; var o := offset.GetOr(0);
      |r| == if o >= n then 0 else Min(limit.GetOr(SubmissionPageSize), n - o)
    ensures forall s :: s in r ==> s in db.submissions
  {
    var all := OrderNewestFirst(db.submissions, CompletedAt);
    assert |all| == |multiset(all)| == |db.submissions|;
    PageNewestFirst(all, CompletedAt, limit.GetOr(SubmissionPageSize), offset.GetOr(0));
    var r := Page(all, limit.GetOr(SubmissionPageSize), offset.GetOr(0));
    assert forall s :: s in all ==> s in multiset(db.submissions);
    r
  }

  /** Paging through `getSubmissions` visits every submission once:
      consecutive pages join up, and one page of `countSubmissions()` rows
      holds them all. */
  lemma SubmissionPagesJoin(db: QuizDb, a: nat, b: nat, offset: nat)
    ensures GetSubmissions(db, Some(a), Some(offset)) + GetSubmissions(db, Some(b), Some(offset + a))
            == GetSubmissions(db, Some(a + b), Some(offset))
  {
    var all := OrderNewestFirst(db.submissions, CompletedAt);
    assert GetSubmissions(db, Some(a), Some(offset)) == Page(all, a, offset);
    assert GetSubmissions(db, Some(b), Some(offset + a)) == Page(all, b, offset + a);
    assert GetSubmissions(db, Some(a + b), Some(offset)) == Page(all, a + b, offset);
    PagesTile(all, a, b, offset);
  }

  lemma AllSubmissionsListed(db: QuizDb)
    ensures multiset(GetSubmissions(db, Some(CountSubmissions(db)), Some(0))) == multiset(db.submissions)
  {
    var all := OrderNewestFirst(db.submissions, CompletedAt);
    assert |all| == |multiset(all)| == |db.submissions|;
    assert Page(all, |db.submissions|, 0) == all;
  }

  /** `getSubmissionById`. */
  function GetSubmissionById(submissions: seq<Submission>, id: int): (r: Option<Submission>)
    ensures r.None? <==> forall i :: 0 <= i < |submissions| ==> submissions[i].id != id
    ensures r.Some? ==> r.value in submissions && r.value.id == id
  {
    if |submissions| == 0 then None
    else if submissions[0].id == id then Some(submissions[0])
    else
      var r := GetSubmissionById(submissions[1..], id);
      assert forall i :: 1 <= i < |submissions| ==> submissions[i] == submissions[1..][i - 1];
      r
  }

  /** `countSubmissions`. */
  function CountSubmissions(db: QuizDb): (n: nat)
    ensures n == |db.submissions|
  {
    |db.submissions|
  }

  /** Each completed quiz adds one to `countSubmissions()`, and the count is
      the number of submissions `getSubmissions` lists when asked for all. */
  lemma CountAfterSubmission(db: QuizDb, d: SubmissionInput, now: string)
    ensures CountSubmissions(CreateSubmission(db, d, now).0) == CountSubmissions(db) + 1
    ensures CountSubmissions(db) == |GetSubmissions(db, Some(|db.submissions|), Some(0))|
  {
  }

  // ---------------------------------------------------------------------------
  // Procedures

  predicate IsActiveProcedure(p: Procedure) { p.isActive == 1 }

  function ProcedureOrder(p: Procedure): int { p.sortOrder }

  /** `getAllProcedures`: the active procedures by ascending `sort_order`. */
  function GetAllProcedures(db: QuizDb): (r: seq<Procedure>)
    ensures Ascending(r, ProcedureOrder)
    ensures forall p :: multiset(r)[p] == if IsActiveProcedure(p) then multiset(db.procedures)[p] else 0
  {
    var r := OrderByKey(Filter(db.procedures, IsActiveProcedure), ProcedureOrder);
    forall p ensures multiset(r)[p] == if IsActiveProcedure(p) then multiset(db.procedures)[p] else 0 {
      FilterMultiplicity(db.procedures, IsActiveProcedure, p);
    }
    r
  }

  /** `getProcedureByKey`: the procedure with that key, or nothing. */
  function GetProcedureByKey(procedures: seq<Procedure>, key: string): (r: Option<Procedure>)
    ensures r.None? <==> forall i :: 0 <= i < |procedures| ==> procedures[i].key != key
    ensures r.Some? ==> r.value in procedures && r.value.key == key
  {
    if |procedures| == 0 then None
    else if procedures[0].key == key then Some(procedures[0])
    else
      var r := GetProcedureByKey(procedures[1..], key);
      assert forall i :: 1 <= i < |procedures| ==> procedures[i] == procedures[1..][i - 1];
      r
  }

  /** After seeding an empty procedure table, a treatment's key finds a
      procedure exactly when the catalogue lists one: bridges, full makeover,
      orthodontics and periodontal are scored by the quiz yet find none. */
  lemma SeededProcedureLookup(firstId: int, t: Treatment)
    ensures GetProcedureByKey(SeededProcedures(SeedCatalogue, 0, firstId), KeyName(t)).Some?
      <==> t !in {Bridges, FullMakeover, Orthodontics, Periodontal}
  {
    SeedCoverage(t);
    SeededKeyFound(firstId, t);
  }

  /** A seeded key is found exactly when some catalogue procedure has it. */
  lemma SeededKeyFound(firstId: int, t: Treatment)
    ensures GetProcedureByKey(SeededProcedures(SeedCatalogue, 0, firstId), KeyName(t)).Some? <==> HasProcedure(t)
  {
    var ps := SeededProcedures(SeedCatalogue, 0, firstId);
    forall i | 0 <= i < |ps| ensures ps[i].key == KeyName(t) <==> ProcedureKey(i) == t {
      assert ps[i].key == KeyName(ProcedureKey(i));
      KeyNameInjective(ProcedureKey(i), t);
    }
  }
}
