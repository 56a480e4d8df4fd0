/** The kitchen-consultation quiz (src/app/consultation/page.tsx): the
    question table, the answer map and its update, the rule-based product
    scorer and the wizard that steps through the questions. */
module Consultation {
  import opened Wrappers
  import opened Seqs
  import opened Sorting
  import opened Products

  /** The weight an option carries. Each question's options use one key. */
  datatype Weight =
    | BudgetWeight(level: int)
    | CategoryWeight(category: string)
    | StyleWeight(style: string)
    | PriorityWeight(priority: string)
    | UsageWeight(usage: string)

  datatype AnswerKind = Single | Multiple

  /** An answer option; its display text is not modelled. */
  datatype AnswerOption = AnswerOption(id: string, weight: Weight)

  /** A quiz question; its display text is not modelled. */
  datatype Question = Question(id: string, kind: AnswerKind, options: seq<AnswerOption>)

  const Questions: seq<Question> := [
    Question("budget", Single, [
      AnswerOption("low", BudgetWeight(1)),
      AnswerOption("medium", BudgetWeight(2)),
      AnswerOption("high", BudgetWeight(3))]),
    Question("category", Single, [
      AnswerOption("faucets", CategoryWeight("Смесители")),
      AnswerOption("sinks", CategoryWeight("Мойки")),
      AnswerOption("kitchen-sets", CategoryWeight("Кухонные гарнитуры")),
      AnswerOption("appliances", CategoryWeight("Встраиваемая техника")),
      AnswerOption("accessories", CategoryWeight("Аксессуары"))]),
    Question("style", Single, [
      AnswerOption("modern", StyleWeight("modern")),
      AnswerOption("classic", StyleWeight("classic")),
      AnswerOption("loft", StyleWeight("loft")),
      AnswerOption("scandinavian", StyleWeight("scandinavian"))]),
    Question("priority", Multiple, [
      AnswerOption("quality", PriorityWeight("quality")),
      AnswerOption("price", PriorityWeight("price")),
      AnswerOption("design", PriorityWeight("design")),
      AnswerOption("functionality", PriorityWeight("functionality"))]),
    Question("usage", Single, [
      AnswerOption("rarely", UsageWeight("light")),
      AnswerOption("sometimes", UsageWeight("medium")),
      AnswerOption("often", UsageWeight("heavy")),
      AnswerOption("professional", UsageWeight("professional"))])
  ]

  /** The answers so far: question id to the ids of the chosen options. */
  type Answers = map<string, seq<string>>

  /** A scored product with the reasons, one per rule that fired. */
  datatype ProductScore = ProductScore(product: Product, score: int, matchReasons: seq<string>)

  /** `answers[questionId] || []`. */
  function AnswerList(answers: Answers, questionId: string): seq<string> {
    if questionId in answers then answers[questionId] else []
  }

  /** `answers[questionId]?.[0]` where it is truthy: a missing key, an empty
      list and an empty id all count as no answer. */
  function FirstAnswer(answers: Answers, questionId: string): Option<string> {
    var list := AnswerList(answers, questionId);
    if |list| > 0 && list[0] != "" then Some(list[0]) else None
  }

  /** `id` is the id of an option of the question `questionId` in the table. */
  ghost predicate IsOptionOf(questionId: string, id: string) {
    exists k, m :: 0 <= k < |Questions| && Questions[k].id == questionId &&
      0 <= m < |Questions[k].options| && Questions[k].options[m].id == id
  }

  /** Every stored answer is a question id mapped to option ids of that
      question, as the option buttons store them. */
  ghost predicate AnswersFromTable(answers: Answers) {
    forall questionId :: questionId in answers ==>
      forall id :: id in answers[questionId] ==> IsOptionOf(questionId, id)
  }

  // ---------------------------------------------------------------------------
  // Answer updates (handleAnswer)
  // ---------------------------------------------------------------------------

  /** The state updater of `handleAnswer`: a single-choice answer replaces the
      entry, a multiple-choice answer toggles the id in it. */
  function UpdateAnswers(prev: Answers, questionId: string, optionId: string, isMultiple: bool): (r: Answers)
    ensures r.Keys == prev.Keys + {questionId}
    ensures forall q :: q in prev && q != questionId ==> r[q] == prev[q]
    ensures !isMultiple ==> r[questionId] == [optionId]
    ensures isMultiple ==> (optionId in r[questionId] <==> optionId !in AnswerList(prev, questionId))
    ensures isMultiple ==> forall id :: id != optionId ==>
              (id in r[questionId] <==> id in AnswerList(prev, questionId))
    ensures isMultiple && optionId !in AnswerList(prev, questionId) ==>
              r[questionId] == AnswerList(prev, questionId) + [optionId]
  {
    if isMultiple then
      var current := AnswerList(prev, questionId);
      var updated := if optionId in current then Filter(current, (id: string) => id != optionId)
                     else current + [optionId];
      prev[questionId := updated]
    else
      prev[questionId := [optionId]]
  }

  /** Toggling a multiple-choice option on and then off restores the entry. */
  lemma ToggleTwice(prev: Answers, questionId: string, optionId: string)
    requires optionId !in AnswerList(prev, questionId)
    ensures AnswerList(UpdateAnswers(UpdateAnswers(prev, questionId, optionId, true), questionId, optionId, true),
                       questionId) == AnswerList(prev, questionId)
  {
    var current := AnswerList(prev, questionId);
    var f := (id: string) => id != optionId;
    FilterAppend(current, [optionId], f);
    FilterKeepsAll(current, f);
    assert Filter([optionId], f) == [];
  }

  /** Choosing an option of a question from the table keeps every stored
      answer an option id of its question. */
  lemma ChoosingKeepsAnswersFromTable(prev: Answers, k: nat, m: nat)
    requires AnswersFromTable(prev)
    requires k < |Questions| && m < |Questions[k].options|
    ensures AnswersFromTable(UpdateAnswers(prev, Questions[k].id, Questions[k].options[m].id,
                                           Questions[k].kind == Multiple))
  {
    var q := Questions[k];
    var r := UpdateAnswers(prev, q.id, q.options[m].id, q.kind == Multiple);
    forall questionId, id | questionId in r && id in r[questionId] ensures IsOptionOf(questionId, id) {
      if questionId == q.id {
        if id == q.options[m].id {
          assert Questions[k].options[m].id == id;
        } else {
          assert id in AnswerList(prev, q.id);
        }
      }
    }
  }

  // ---------------------------------------------------------------------------
  // Scoring rules (calculateRecommendations)
  // ---------------------------------------------------------------------------

  /** The budget option id whose band holds `price`. */
  function BudgetBand(price: int): string {
    if price <= 20000 then "low" else if price <= 50000 then "medium" else "high"
  }

  /** The budget bands are the three conditions of the scorer, and exactly one
      of them holds for every price. */
  lemma BudgetBands(price: int)
    ensures BudgetBand(price) == "low" <==> price <= 20000
    ensures BudgetBand(price) == "medium" <==> 20000 < price <= 50000
    ensures BudgetBand(price) == "high" <==> price > 50000
  {
  }

  /** The scoring rules. */
  datatype Rule = BudgetRule | CategoryRule | QualityRule | PriceRule | ProfessionalRule | LightUsageRule

  function Points(rule: Rule): int {
    match rule
    case BudgetRule => 30
    case CategoryRule => 40
    case QualityRule => 20
    case PriceRule => 15
    case ProfessionalRule => 25
    case LightUsageRule => 15
  }

  function Reason(rule: Rule, p: Product): string {
    match rule
    case BudgetRule => if BudgetBand(p.price) == "high" then "Премиум качество" else "Подходит по бюджету"
    case CategoryRule => "Соответствует выбранной категории"
    case QualityRule => "Высокий рейтинг качества"
    case PriceRule => "Доступная цена"
    case ProfessionalRule => "Профессиональный уровень"
    case LightUsageRule => "Оптимально для редкого использования"
  }

  predicate IsCategoryQuestion(q: Question) {
    q.id == "category"
  }

  /** `o => o.id === id`. */
  function HasId(id: string): AnswerOption -> bool {
    (o: AnswerOption) => o.id == id
  }

  /** Among options with distinct ids, looking an id up finds its option. */
  lemma FindDistinctId(options: seq<AnswerOption>, id: string, m: nat)
    requires forall a, b :: 0 <= a < b < |options| ==> options[a].id != options[b].id
    requires m < |options| && options[m].id == id
    ensures FindFirst(options, HasId(id)) == Some(options[m])
  {
    var found := FindFirst(options, HasId(id));
    assert HasId(id)(options[m]);
    var i :| FirstAt(options, HasId(id), i) && options[i] == found.value;
    assert i == m;
  }

  /** The category question is the second one of the table. */
  lemma CategoryQuestionFound()
    ensures FindFirst(Questions, IsCategoryQuestion) == Some(Questions[1])
  {
    assert FirstAt(Questions, IsCategoryQuestion, 1);
  }

  /** The options of the category question have distinct ids. */
  lemma CategoryIdsDistinct()
    ensures forall a, b :: 0 <= a < b < |Questions[1].options| ==>
      Questions[1].options[a].id != Questions[1].options[b].id
  {
  }

  /** The option of the category question that the stored answer names. */
  function ChosenCategoryOption(answers: Answers): Option<AnswerOption> {
    match FirstAnswer(answers, "category")
    case None => None
    case Some(id) =>
      match FindFirst(Questions, IsCategoryQuestion)
      case None => None
      case Some(question) => FindFirst(question.options, HasId(id))
  }

  /** The question each rule reads. */
  function QuestionOf(rule: Rule): string {
    match rule
    case BudgetRule => "budget"
    case CategoryRule => "category"
    case QualityRule => "priority"
    case PriceRule => "priority"
    case ProfessionalRule => "usage"
    case LightUsageRule => "usage"
  }

  /** When each rule fires for a product. A rule fires only once the question
      it reads has been answered. */
  predicate Fires(rule: Rule, p: Product, answers: Answers)
    ensures Fires(rule, p, answers) ==> QuestionOf(rule) in answers
  {
    match rule
    case BudgetRule => FirstAnswer(answers, "budget") == Some(BudgetBand(p.price))
    case CategoryRule =>
      var option := ChosenCategoryOption(answers);
      option.Some? && option.value.weight.CategoryWeight? && p.category == option.value.weight.category
    case QualityRule => "quality" in AnswerList(answers, "priority") && p.rating >= 45
    case PriceRule => "price" in AnswerList(answers, "priority") && p.price <= 25000
    case ProfessionalRule => FirstAnswer(answers, "usage") == Some("professional") && p.price > 40000
    case LightUsageRule => FirstAnswer(answers, "usage") == Some("light") && p.price <= 30000
  }

  /** `[rule]` if the rule fires for `p`, else nothing. */
  function Only(rule: Rule, p: Product, answers: Answers): seq<Rule> {
    if Fires(rule, p, answers) then [rule] else []
  }

  /** The rules that fire for `p`, in the order the scorer applies them. */
  function FiredRules(p: Product, answers: Answers): seq<Rule> {
    Only(BudgetRule, p, answers) + Only(CategoryRule, p, answers) +
    (Only(QualityRule, p, answers) + Only(PriceRule, p, answers)) +
    (Only(ProfessionalRule, p, answers) + Only(LightUsageRule, p, answers))
  }

  function TotalPoints(rules: seq<Rule>): int {
    if rules == [] then 0 else TotalPoints(rules[..|rules| - 1]) + Points(rules[|rules| - 1])
  }

  function ReasonsOf(rules: seq<Rule>, p: Product): seq<string> {
    if rules == [] then [] else ReasonsOf(rules[..|rules| - 1], p) + [Reason(rules[|rules| - 1], p)]
  }

  /** The score of `p`: the points and the reasons of the rules that fire. */
  function ScoreOf(p: Product, answers: Answers): (r: ProductScore)
    ensures r.product == p
    ensures |r.matchReasons| == |FiredRules(p, answers)|
  {
    var fired := FiredRules(p, answers);
    ReasonsMatchRules(fired, p);
    ProductScore(p, TotalPoints(fired), ReasonsOf(fired, p))
  }

  /** Points and reasons add up over consecutive groups of rules. */
  lemma {:induction false} AppendRules(a: seq<Rule>, b: seq<Rule>, p: Product)
    ensures TotalPoints(a + b) == TotalPoints(a) + TotalPoints(b)
    ensures ReasonsOf(a + b, p) == ReasonsOf(a, p) + ReasonsOf(b, p)
    decreases |b|
  {
    if b == [] {
      assert a + b == a;
    } else {
      var c := b[..|b| - 1];
      assert (a + b)[..|a + b| - 1] == a + c;
      AppendRules(a, c, p);
    }
  }

  /** A running score and reason list, extended by the rules in `rules`. */
  predicate Extends(score: int, reasons: seq<string>, score0: int, reasons0: seq<string>, rules: seq<Rule>, p: Product) {
    score == score0 + TotalPoints(rules) && reasons == reasons0 + ReasonsOf(rules, p)
  }

  /** The budget check of the scorer. */
  method CheckBudget(p: Product, answers: Answers, score0: int, reasons0: seq<string>)
    returns (score: int, reasons: seq<string>)
    ensures Extends(score, reasons, score0, reasons0, Only(BudgetRule, p, answers), p)
  {
    score, reasons := score0, reasons0;
    var budgetAnswer := FirstAnswer(answers, "budget");
    if budgetAnswer.Some? {
      if budgetAnswer.value == "low" && p.price <= 20000 {
        score := score + 30;
        reasons := reasons + ["Подходит по бюджету"];
      } else if budgetAnswer.value == "medium" && p.price > 20000 && p.price <= 50000 {
        score := score + 30;
        reasons := reasons + ["Подходит по бюджету"];
      } else if budgetAnswer.value == "high" && p.price > 50000 {
        score := score + 30;
        reasons := reasons + ["Премиум качество"];
      }
    }
  }

  /** The category check of the scorer. */
  method CheckCategory(p: Product, answers: Answers, score0: int, reasons0: seq<string>)
    returns (score: int, reasons: seq<string>)
    ensures Extends(score, reasons, score0, reasons0, Only(CategoryRule, p, answers), p)
  {
    score, reasons := score0, reasons0;
    var categoryAnswer := FirstAnswer(answers, "category");
    if categoryAnswer.Some? {
      var question := FindFirst(Questions, IsCategoryQuestion);
      CategoryQuestionFound();
      var option := if question.Some? then FindFirst(question.value.options, HasId(categoryAnswer.value))
                    else None;
      assert option == ChosenCategoryOption(answers);
      if option.Some? && option.value.weight.CategoryWeight? && p.category == option.value.weight.category {
        score := score + 40;
        reasons := reasons + ["Соответствует выбранной категории"];
      }
    }
  }

  /** The two priority checks of the scorer. */
  method CheckPriorities(p: Product, answers: Answers, score0: int, reasons0: seq<string>)
    returns (score: int, reasons: seq<string>)
    ensures Extends(score, reasons, score0, reasons0, Only(QualityRule, p, answers) + Only(PriceRule, p, answers), p)
  {
    score, reasons := score0, reasons0;
    var priorityAnswers := AnswerList(answers, "priority");
    if "quality" in priorityAnswers && p.rating >= 45 {
      score := score + 20;
      reasons := reasons + ["Высокий рейтинг качества"];
    }
    assert Extends(score, reasons, score0, reasons0, Only(QualityRule, p, answers), p);
    ghost var score1, reasons1 := score, reasons;
    if "price" in priorityAnswers && p.price <= 25000 {
      score := score + 15;
      reasons := reasons + ["Доступная цена"];
    }
    assert Extends(score, reasons, score1, reasons1, Only(PriceRule, p, answers), p);
    AppendRules(Only(QualityRule, p, answers), Only(PriceRule, p, answers), p);
  }

  /** The usage check of the scorer. */
  method CheckUsage(p: Product, answers: Answers, score0: int, reasons0: seq<string>)
    returns (score: int, reasons: seq<string>)
    ensures Extends(score, reasons, score0, reasons0, Only(ProfessionalRule, p, answers) + Only(LightUsageRule, p, answers), p)
  {
    score, reasons := score0, reasons0;
    var usageAnswer := FirstAnswer(answers, "usage");
    if usageAnswer == Some("professional") && p.price > 40000 {
      score := score + 25;
      reasons := reasons + ["Профессиональный уровень"];
    } else if usageAnswer == Some("light") && p.price <= 30000 {
      score := score + 15;
      reasons := reasons + ["Оптимально для редкого использования"];
    }
    AppendRules(Only(ProfessionalRule, p, answers), Only(LightUsageRule, p, answers), p);
  }

  /** The score of a product is the sum over the four groups of checks. */
  lemma ScoreOfByGroups(p: Product, answers: Answers, budget: seq<Rule>, category: seq<Rule>, priorities: seq<Rule>, usage: seq<Rule>)
    requires budget == Only(BudgetRule, p, answers) && category == Only(CategoryRule, p, answers)
    requires priorities == Only(QualityRule, p, answers) + Only(PriceRule, p, answers)
    requires usage == Only(ProfessionalRule, p, answers) + Only(LightUsageRule, p, answers)
    ensures ScoreOf(p, answers).score == TotalPoints(budget) + TotalPoints(category) + TotalPoints(priorities) + TotalPoints(usage)
    ensures ScoreOf(p, answers).matchReasons == ReasonsOf(budget, p) + ReasonsOf(category, p) + ReasonsOf(priorities, p) + ReasonsOf(usage, p)
  {
    AppendRules(budget, category, p);
    AppendRules(budget + category, priorities, p);
    AppendRules(budget + category + priorities, usage, p);
  }

  /** The scoring of one product inside `calculateRecommendations`: the checks
      applied in sequence to a running score and reason list. */
  method ScoreProduct(p: Product, answers: Answers) returns (score: int, matchReasons: seq<string>)
    ensures ProductScore(p, score, matchReasons) == ScoreOf(p, answers)
    ensures ProductScore(p, score, matchReasons) == ScorerFor(answers)(p)
  {
    ghost var budget := Only(BudgetRule, p, answers);
    ghost var category := Only(CategoryRule, p, answers);
    ghost var priorities := Only(QualityRule, p, answers) + Only(PriceRule, p, answers);
    ghost var usage := Only(ProfessionalRule, p, answers) + Only(LightUsageRule, p, answers);
    score, matchReasons := CheckBudget(p, answers, 0, []);
    score, matchReasons := CheckCategory(p, answers, score, matchReasons);
    score, matchReasons := CheckPriorities(p, answers, score, matchReasons);
    score, matchReasons := CheckUsage(p, answers, score, matchReasons);
    ScoreOfByGroups(p, answers, budget, category, priorities, usage);
    assert score == ScoreOf(p, answers).score;
    assert [] + ReasonsOf(budget, p) == ReasonsOf(budget, p);
    assert matchReasons == ScoreOf(p, answers).matchReasons;
  }

  /** Every rule contributes one reason. */
  lemma {:induction false} ReasonsMatchRules(rules: seq<Rule>, p: Product)
    ensures |ReasonsOf(rules, p)| == |rules|
  {
    if rules != [] {
      ReasonsMatchRules(rules[..|rules| - 1], p);
    }
  }

  /** Every rule is worth points, so a non-empty list of rules scores. */
  lemma {:induction false} PointsPositive(rules: seq<Rule>)
    ensures TotalPoints(rules) >= 0
    ensures TotalPoints(rules) > 0 <==> rules != []
  {
    if rules != [] {
      PointsPositive(rules[..|rules| - 1]);
    }
  }

  /** `rules` is empty or holds just `rule`. */
  predicate AtMost(rules: seq<Rule>, rule: Rule) {
    rules == [] || rules == [rule]
  }

  lemma SharePoints(rules: seq<Rule>, rule: Rule)
    requires AtMost(rules, rule)
    ensures 0 <= TotalPoints(rules) <= Points(rule)
    ensures rules == [] ==> TotalPoints(rules) == 0
  {
    if rules != [] {
      assert rules[..0] == [];
    }
  }

  /** The bound on points for any choice of fired rules in which the two
      usage rules do not both fire. */
  lemma PointsOfShares(budget: seq<Rule>, category: seq<Rule>, quality: seq<Rule>, price: seq<Rule>,
                       professional: seq<Rule>, light: seq<Rule>, p: Product)
    requires AtMost(budget, BudgetRule) && AtMost(category, CategoryRule) && AtMost(quality, QualityRule)
    requires AtMost(price, PriceRule) && AtMost(professional, ProfessionalRule) && AtMost(light, LightUsageRule)
    requires professional == [] || light == []
    ensures var fired := budget + category + (quality + price) + (professional + light);
      0 <= TotalPoints(fired) <= 130 && |ReasonsOf(fired, p)| == |fired| && (TotalPoints(fired) > 0 <==> fired != [])
  {
    var fired := budget + category + (quality + price) + (professional + light);
    AppendRules(budget, category, p);
    AppendRules(quality, price, p);
    AppendRules(professional, light, p);
    AppendRules(budget + category, quality + price, p);
    AppendRules(budget + category + (quality + price), professional + light, p);
    SharePoints(budget, BudgetRule);
    SharePoints(category, CategoryRule);
    SharePoints(quality, QualityRule);
    SharePoints(price, PriceRule);
    SharePoints(professional, ProfessionalRule);
    SharePoints(light, LightUsageRule);
    PointsPositive(fired);
    ReasonsMatchRules(fired, p);
  }

  /** A fired rule list holds each rule at most once. */
  lemma OnlyAtMost(rule: Rule, p: Product, answers: Answers)
    ensures AtMost(Only(rule, p, answers), rule)
  {
  }

  /** The two usage rules never fire together. */
  lemma UsageRulesExclusive(p: Product, answers: Answers)
    ensures Only(ProfessionalRule, p, answers) == [] || Only(LightUsageRule, p, answers) == []
  {
  }

  /** A product scores at most 30 + 40 + 20 + 15 + 25 = 130, it scores iff
      some rule fired, and it carries one reason per fired rule. */
  lemma ScoreBounds(p: Product, answers: Answers)
    ensures 0 <= ScoreOf(p, answers).score <= 130
    ensures ScoreOf(p, answers).score > 0 <==> |ScoreOf(p, answers).matchReasons| > 0
    ensures |ScoreOf(p, answers).matchReasons| == |FiredRules(p, answers)|
  {
    OnlyAtMost(BudgetRule, p, answers);
    OnlyAtMost(CategoryRule, p, answers);
    OnlyAtMost(QualityRule, p, answers);
    OnlyAtMost(PriceRule, p, answers);
    OnlyAtMost(ProfessionalRule, p, answers);
    OnlyAtMost(LightUsageRule, p, answers);
    UsageRulesExclusive(p, answers);
    PointsOfShares(Only(BudgetRule, p, answers), Only(CategoryRule, p, answers), Only(QualityRule, p, answers),
                   Only(PriceRule, p, answers), Only(ProfessionalRule, p, answers), Only(LightUsageRule, p, answers), p);
  }

  /** `(a, b) => b.score - a.score` as "goes after": `a` goes after `b` when
      `b` scores higher. */
  function ScoreGt(a: ProductScore, b: ProductScore): bool {
    b.score - a.score > 0
  }

  lemma ScoreGtIsStrictWeakOrder()
    ensures StrictWeakOrder(ScoreGt)
  {
  }

  /** A scorer pairs each product with its score and reasons. */
  type Scorer = Product -> ProductScore

  /** The scorer of a given answer map. */
  function ScorerFor(answers: Answers): Scorer {
    (p: Product) => ScoreOf(p, answers)
  }

  /** What the ranking needs of a scorer: it keeps the product, and a score
      is positive exactly when it comes with reasons and is at most 130. */
  ghost predicate SoundScorer(score: Scorer) {
    forall p :: score(p).product == p && score(p).score <= 130 &&
      (score(p).score > 0 <==> |score(p).matchReasons| > 0)
  }

  lemma ScorerForIsSound(answers: Answers)
    ensures SoundScorer(ScorerFor(answers))
  {
    forall p ensures ScorerFor(answers)(p).product == p && ScorerFor(answers)(p).score <= 130 &&
      (ScorerFor(answers)(p).score > 0 <==> |ScorerFor(answers)(p).matchReasons| > 0) {
      ScoreBounds(p, answers);
    }
  }

  /** Every product with its score, in dataset order. */
  function ScoreAll(products: seq<Product>, score: Scorer): seq<ProductScore> {
    seq(|products|, i requires 0 <= i < |products| => score(products[i]))
  }

  function Positive(s: ProductScore): bool {
    s.score > 0
  }

  /** The products that score, in dataset order. */
  function Scored(products: seq<Product>, score: Scorer): seq<ProductScore> {
    Filter(ScoreAll(products, score), Positive)
  }

  /** Scoring one more product extends the scored list by it, if it scores. */
  lemma ScoredSnoc(products: seq<Product>, score: Scorer, i: nat, entry: ProductScore)
    requires i < |products| && entry == score(products[i])
    ensures Scored(products[..i + 1], score) ==
            Scored(products[..i], score) + (if entry.score > 0 then [entry] else [])
  {
    assert ScoreAll(products[..i + 1], score) == ScoreAll(products[..i], score) + [entry];
    FilterAppend(ScoreAll(products[..i], score), [entry], Positive);
    assert [entry][1..] == [];
  }

  /** The scoring products, stably sorted by descending score, cut to the
      first three. */
  function Ranked(products: seq<Product>, score: Scorer): seq<ProductScore> {
    Take(SortSeq(Scored(products, score), ScoreGt), 3)
  }

  /** The recommendations for an answer map. */
  function Recommendations(products: seq<Product>, answers: Answers): (r: seq<ProductScore>)
    ensures |r| <= 3 && |r| <= |products|
  {
    Ranked(products, ScorerFor(answers))
  }

  /** `calculateRecommendations`: score every product, keep those that score,
      sort them in place by descending score and keep the first three. */
  method CalculateRecommendations(products: seq<Product>, answers: Answers) returns (recommendations: seq<ProductScore>)
    ensures recommendations == Recommendations(products, answers)
  {
    var productScores: seq<ProductScore> := [];
    for i := 0 to |products|
      invariant productScores == Scored(products[..i], ScorerFor(answers))
    {
      var score, matchReasons := ScoreProduct(products[i], answers);
      ScoredSnoc(products, ScorerFor(answers), i, ProductScore(products[i], score, matchReasons));
      if score > 0 {
        productScores := productScores + [ProductScore(products[i], score, matchReasons)];
      }
    }
    assert products[..|products|] == products;
    var a := new ProductScore[|productScores|](k requires 0 <= k < |productScores| => productScores[k]);
    assert a[..] == productScores;
    InsertionSort(a, ScoreGt);
    recommendations := Take(a[..], 3);
  }

  /** An entry kept by `Scored` belongs to a listed product, is that
      product's own score, and scores between 1 and 130 with reasons. */
  lemma ScoredEntry(products: seq<Product>, score: Scorer, x: ProductScore)
    requires SoundScorer(score)
    requires x in Scored(products, score)
    ensures x.product in products && x == score(x.product)
    ensures 0 < x.score <= 130 && |x.matchReasons| > 0
  {
    var all := ScoreAll(products, score);
    var k :| 0 <= k < |all| && all[k] == x;
    assert x == score(products[k]);
  }

  /** Every entry of the sorted list is an entry of the list sorted. */
  lemma SortedEntryFrom(scored: seq<ProductScore>, x: ProductScore)
    requires x in SortSeq(scored, ScoreGt)
    ensures x in scored
  {
    SortSeqPermutes(scored, ScoreGt);
    assert x in multiset(SortSeq(scored, ScoreGt));
  }

  /** The shape of a ranking by a sound scorer: at most three entries, each a
      product of the list with its own score, which is positive, at most 130
      and has reasons; in non-increasing score order. */
  lemma RankedShape(products: seq<Product>, score: Scorer)
    requires SoundScorer(score)
    ensures var r := Ranked(products, score);
      |r| <= 3 &&
      (forall i :: 0 <= i < |r| ==>
         r[i].product in products && r[i] == score(r[i].product) &&
         0 < r[i].score <= 130 && |r[i].matchReasons| > 0) &&
      (forall i, j :: 0 <= i < j < |r| ==> r[i].score >= r[j].score)
  {
    var scored := Scored(products, score);
    var sorted := SortSeq(scored, ScoreGt);
    var r := Ranked(products, score);
    forall i | 0 <= i < |r|
      ensures r[i].product in products && r[i] == score(r[i].product)
      ensures 0 < r[i].score <= 130 && |r[i].matchReasons| > 0
    {
      assert r[i] == sorted[i];
      SortedEntryFrom(scored, r[i]);
      ScoredEntry(products, score, r[i]);
    }
    ScoreGtIsStrictWeakOrder();
    SortSeqSorted(scored, ScoreGt);
    assert forall i, j :: 0 <= i < j < |r| ==> r[i] == sorted[i] && r[j] == sorted[j];
  }

  /** The recommendations: at most three, each a listed product with its own
      positive score of at most 130 and its reasons, best score first. */
  lemma RecommendationsShape(products: seq<Product>, answers: Answers)
    ensures var r := Recommendations(products, answers);
      |r| <= 3 &&
      (forall i :: 0 <= i < |r| ==>
         r[i].product in products && r[i] == ScoreOf(r[i].product, answers) &&
         0 < r[i].score <= 130 && |r[i].matchReasons| > 0) &&
      (forall i, j :: 0 <= i < j < |r| ==> r[i].score >= r[j].score)
  {
    ScorerForIsSound(answers);
    RankedShape(products, ScorerFor(answers));
  }

  /** Entries with equal scores keep their dataset order through the sort. */
  lemma RecommendationsTiesKeepOrder(products: seq<Product>, answers: Answers, v: int)
    ensures var withScore := (s: ProductScore) => s.score == v;
      var scored := Scored(products, ScorerFor(answers));
      Filter(SortSeq(scored, ScoreGt), withScore) == Filter(scored, withScore)
  {
    var withScore := (s: ProductScore) => s.score == v;
    var pivot := ProductScore(Product(0, "", 0, "", "", 0, ""), v, []);
    ScoreGtIsStrictWeakOrder();
    SortSeqStable(Scored(products, ScorerFor(answers)), ScoreGt, pivot, withScore);
  }

  /** With no answers no rule fires, so nothing is recommended. */
  lemma NoAnswersNoRecommendations(products: seq<Product>)
    ensures Recommendations(products, map[]) == []
  {
    var all := ScoreAll(products, ScorerFor(map[]));
    forall k | 0 <= k < |all| ensures !Positive(all[k]) {
      ScoreBounds(products[k], map[]);
      assert FiredRules(products[k], map[]) == [];
    }
  }

  /** The chosen category option, when there is one, is the option of the
      category question with the chosen id. */
  lemma ChosenCategoryOptionIs(answers: Answers, id: string)
    requires FirstAnswer(answers, "category") == Some(id)
    ensures ChosenCategoryOption(answers) == FindFirst(Questions[1].options, HasId(id))
  {
    CategoryQuestionFound();
  }

  /** Category points are awarded iff the chosen answer names an option of
      the category question whose weight is the product's category. */
  lemma CategoryRuleIff(p: Product, answers: Answers)
    ensures Fires(CategoryRule, p, answers) <==>
      exists m :: 0 <= m < |Questions[1].options| &&
        FirstAnswer(answers, "category") == Some(Questions[1].options[m].id) &&
        Questions[1].options[m].weight == CategoryWeight(p.category)
  {
    var options := Questions[1].options;
    var answer := FirstAnswer(answers, "category");
    if answer.Some? {
      var id := answer.value;
      ChosenCategoryOptionIs(answers, id);
      var found := FindFirst(options, HasId(id));
      if found.Some? {
        var i :| FirstAt(options, HasId(id), i) && options[i] == found.value;
        assert Fires(CategoryRule, p, answers) <==> options[i].weight == CategoryWeight(p.category);
        CategoryIdsDistinct();
        forall m | 0 <= m < |options| && answer == Some(options[m].id)
          ensures m == i
        {
          FindDistinctId(options, id, m);
        }
      } else {
        assert !Fires(CategoryRule, p, answers);
        assert forall m :: 0 <= m < |options| ==> !HasId(id)(options[m]);
      }
    }
  }

  /** The 'light' usage rule compares the answer with a weight value, but the
      stored answers are option ids, and no usage option has the id 'light':
      for answers given through the option buttons the rule never fires. */
  lemma LightUsageNeverFires(p: Product, answers: Answers)
    requires AnswersFromTable(answers)
    ensures !Fires(LightUsageRule, p, answers)
  {
    var usage := FirstAnswer(answers, "usage");
    if usage.Some? {
      assert usage.value in answers["usage"];
      var k, m :| 0 <= k < |Questions| && Questions[k].id == "usage" &&
        0 <= m < |Questions[k].options| && Questions[k].options[m].id == usage.value;
      assert Questions[k] == Questions[4];
      assert usage.value != "light";
    }
  }

  // ---------------------------------------------------------------------------
  // The quiz wizard
  // ---------------------------------------------------------------------------

  /** The state of the consultation page. `catalog` is the product list it
      scores, the static product table. */
  class Wizard {
    const catalog: seq<Product>
    var currentQuestion: int
    var answers: Answers
    var showResults: bool
    var recommendations: seq<ProductScore>

    /** The index names a question of the table, and every stored answer is
        an option id of its question. */
    ghost predicate Valid()
      reads this
    {
      0 <= currentQuestion < |Questions| && AnswersFromTable(answers)
    }

    constructor ()
      ensures Valid()
      ensures catalog == ProductsData
      ensures currentQuestion == 0 && answers == map[] && !showResults && recommendations == []
    {
      catalog := ProductsData;
      currentQuestion := 0;
      answers := map[];
      showResults := false;
      recommendations := [];
    }

    /** `answers[currentQ.id] || []`. */
    function CurrentAnswers(): seq<string>
      reads this
      requires Valid()
    {
      AnswerList(answers, Questions[currentQuestion].id)
    }

    /** `canProceed`: the "next" button is enabled once the current question
        has an answer. */
    function CanProceed(): bool
      reads this
      requires Valid()
    {
      |CurrentAnswers()| > 0
    }

    /** A click on option `m` of the current question. */
    method SelectOption(m: nat)
      requires Valid() && m < |Questions[currentQuestion].options|
      modifies this`answers
      ensures Valid()
      ensures answers == UpdateAnswers(old(answers), Questions[currentQuestion].id,
                                       Questions[currentQuestion].options[m].id,
                                       Questions[currentQuestion].kind == Multiple)
      ensures Questions[currentQuestion].kind == Single ==> CanProceed()
    {
      var q := Questions[currentQuestion];
      ChoosingKeepsAnswersFromTable(answers, currentQuestion, m);
      answers := UpdateAnswers(answers, q.id, q.options[m].id, q.kind == Multiple);
    }

    /** `nextQuestion`: advance, or on the last question score the products. */
    method NextQuestion()
      requires Valid()
      modifies this`currentQuestion, this`showResults, this`recommendations
      ensures Valid()
      ensures old(currentQuestion) < |Questions| - 1 ==>
        currentQuestion == old(currentQuestion) + 1 && showResults == old(showResults) &&
        recommendations == old(recommendations)
      ensures old(currentQuestion) == |Questions| - 1 ==>
        currentQuestion == old(currentQuestion) && showResults &&
        recommendations == Recommendations(catalog, answers)
    {
      if currentQuestion < |Questions| - 1 {
        currentQuestion := currentQuestion + 1;
      } else {
        recommendations := CalculateRecommendations(catalog, answers);
        showResults := true;
      }
    }

    /** `prevQuestion`: step back, except on the first question. */
    method PrevQuestion()
      requires Valid()
      modifies this`currentQuestion
      ensures Valid()
      ensures currentQuestion == if old(currentQuestion) > 0 then old(currentQuestion) - 1 else 0
    {
      if currentQuestion > 0 {
        currentQuestion := currentQuestion - 1;
      }
    }

    /** `restartQuiz`: back to the first question with nothing answered. */
    method RestartQuiz()
      modifies this
      ensures Valid()
      ensures currentQuestion == 0 && answers == map[] && !showResults && recommendations == []
    {
      currentQuestion := 0;
      answers := map[];
      showResults := false;
      recommendations := [];
    }
  }
}
