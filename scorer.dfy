/**
 * The scoring engine: runs every rule in a fixed order, keeps the issues they
 * report, accumulates each category's penalty up to that category's cap,
 * and turns the capped penalties into an overall score, a status, and a
 * score per category scaled to that category's maximum.
 */
module Scorer {
  import opened Text
  import opened Resume
  import opened Optional
  import opened Rules

  const BaseScore: int := 100

  /** The most penalty a category can take. */
  function Cap(c: Category): (n: nat)
    ensures n > 0
  {
    match c
    case Tailoring => 15
    case Content => 20
    case Sections => 15
    case AtsEssentials => 10
  }

  /** The score a category shows when it takes no penalty. */
  function MaxScore(c: Category): nat
  {
    match c
    case Tailoring => 45
    case Content => 30
    case Sections => 25
    case AtsEssentials => 45
  }

  /** The categories in the order the score tables list them. */
  const Categories: seq<Category> := [Tailoring, Content, Sections, AtsEssentials]

  /** The rules in the order they run. */
  const AllRules: seq<RuleId> := [
    SoftSkillsRule, ActionVerbsRule, TailoredTitleRule,
    SectionOrderRule, ExperienceDensityRule, BulletQualityRule, TimelineRule, AtsFailureModesRule,
    MissingSectionsRule, FragmentedStructureRule, HeaderNoiseRule, ContactInfoRule]

  // --------------------------------------------------------------- issues

  /** What each of the given rules reports on r, in rule order. */
  function Reports(r: ResumeData, ids: seq<RuleId>): (reports: seq<Option<Issue>>)
    requires NoBlankBullets(r)
    ensures |reports| == |ids|
  {
    seq(|ids|, k requires 0 <= k < |ids| => ApplyRule(ids[k], r))
  }

  /** The issues among the reports, in order: `if issue: issues.append(issue)`. */
  function Collect(reports: seq<Option<Issue>>): (issues: seq<Issue>)
    ensures |issues| <= |reports|
  {
    if |reports| == 0 then []
    else
      var init := Collect(reports[..|reports| - 1]);
      match reports[|reports| - 1]
      case None => init
      case Some(issue) => init + [issue]
  }

  /** The issues the given rules report, in rule order. */
  function Issues(r: ResumeData, ids: seq<RuleId>): seq<Issue>
    requires NoBlankBullets(r)
  {
    Collect(Reports(r, ids))
  }

  /** One more report adds its issue, if it is one, at the end. */
  lemma CollectStep(reports: seq<Option<Issue>>, o: Option<Issue>)
    ensures Collect(reports + [o]) == Collect(reports) + (if o.Some? then [o.value] else [])
  {
    assert (reports + [o])[..|reports|] == reports;
  }

  /** Every collected issue is one of the reports. */
  lemma {:induction false} CollectedAreReported(reports: seq<Option<Issue>>)
    ensures forall i :: i in Collect(reports) ==> exists k :: 0 <= k < |reports| && reports[k] == Some(i)
  {
    if |reports| > 0 {
      var init, last := reports[..|reports| - 1], reports[|reports| - 1];
      CollectedAreReported(init);
      assert reports == init + [last];
      CollectStep(init, last);
      forall i | i in Collect(reports)
        ensures exists k :: 0 <= k < |reports| && reports[k] == Some(i)
      {
        if i in Collect(init) {
          var k :| 0 <= k < |init| && init[k] == Some(i);
          assert reports[k] == init[k];
        } else {
          assert reports[|reports| - 1] == Some(i);
        }
      }
    }
  }

  /** Every reported issue is collected. */
  lemma {:induction false} ReportedAreCollected(reports: seq<Option<Issue>>)
    ensures forall k :: 0 <= k < |reports| && reports[k].Some? ==> reports[k].value in Collect(reports)
  {
    if |reports| > 0 {
      var init, last := reports[..|reports| - 1], reports[|reports| - 1];
      ReportedAreCollected(init);
      assert reports == init + [last];
      CollectStep(init, last);
      forall k | 0 <= k < |reports| && reports[k].Some?
        ensures reports[k].value in Collect(reports)
      {
        if k < |init| {
          assert reports[k] == init[k];
        }
      }
    }
  }

  /** Every issue was reported by one of the rules. */
  lemma IssuesComeFromRules(r: ResumeData, ids: seq<RuleId>)
    requires NoBlankBullets(r)
    ensures forall i :: i in Issues(r, ids) ==> exists k :: 0 <= k < |ids| && ApplyRule(ids[k], r) == Some(i)
  {
    CollectedAreReported(Reports(r, ids));
  }

  /** Every issue a rule reports is kept. */
  lemma RulesReportIntoIssues(r: ResumeData, ids: seq<RuleId>)
    requires NoBlankBullets(r)
    ensures forall k :: 0 <= k < |ids| && ApplyRule(ids[k], r).Some? ==> ApplyRule(ids[k], r).value in Issues(r, ids)
  {
    var reports := Reports(r, ids);
    ReportedAreCollected(reports);
    assert forall k :: 0 <= k < |ids| ==> reports[k] == ApplyRule(ids[k], r);
  }

  // ------------------------------------------------------------ penalties

  /** One accumulation step: below the cap, add the penalty without passing the cap. */
  function AddCapped(current: nat, pen: nat, cap: nat): nat
  {
    if current < cap then current + Min(pen, cap - current) else current
  }

  /** A category's penalty as the issues accumulate it, one at a time, in order. */
  function CategoryPenalty(issues: seq<Issue>, c: Category): (p: nat)
    ensures p <= Cap(c)
  {
    if |issues| == 0 then 0
    else
      var p := CategoryPenalty(issues[..|issues| - 1], c);
      var last := issues[|issues| - 1];
      if last.category == c then AddCapped(p, last.penalty, Cap(c)) else p
  }

  /** The uncapped sum of a category's penalties. */
  function RawPenalty(issues: seq<Issue>, c: Category): nat
  {
    if |issues| == 0 then 0
    else
      var last := issues[|issues| - 1];
      RawPenalty(issues[..|issues| - 1], c) + (if last.category == c then last.penalty else 0)
  }

  /** Accumulating up to the cap is capping the plain sum, whatever the order of the issues. */
  lemma {:induction false} CategoryPenaltyIsCappedSum(issues: seq<Issue>, c: Category)
    ensures CategoryPenalty(issues, c) == Min(Cap(c), RawPenalty(issues, c))
  {
    if |issues| > 0 {
      CategoryPenaltyIsCappedSum(issues[..|issues| - 1], c);
    }
  }

  /** Once a category reaches its cap, later issues leave its penalty there. */
  lemma {:induction false} CapAbsorbs(issues: seq<Issue>, more: seq<Issue>, c: Category)
    requires CategoryPenalty(issues, c) == Cap(c)
    ensures CategoryPenalty(issues + more, c) == Cap(c)
  {
    if |more| == 0 {
      assert issues + more == issues;
    } else {
      var init := more[..|more| - 1];
      CapAbsorbs(issues, init, c);
      assert (issues + more)[..|issues + more| - 1] == issues + init;
    }
  }

  /** The capped penalties of the given categories, added up. */
  function PenaltySum(issues: seq<Issue>, cats: seq<Category>): nat
  {
    if |cats| == 0 then 0
    else PenaltySum(issues, cats[..|cats| - 1]) + CategoryPenalty(issues, cats[|cats| - 1])
  }

  /** Adding up over the four categories of the score table. */
  lemma PenaltySumOfCategories(issues: seq<Issue>)
    ensures PenaltySum(issues, Categories)
      == CategoryPenalty(issues, Tailoring) + CategoryPenalty(issues, Content)
       + CategoryPenalty(issues, Sections) + CategoryPenalty(issues, AtsEssentials)
  {
    var c3: seq<Category> := [Tailoring, Content, Sections];
    var c2: seq<Category> := [Tailoring, Content];
    var c1: seq<Category> := [Tailoring];
    assert Categories[..3] == c3 && c3[..2] == c2 && c2[..1] == c1 && c1[..0] == [];
    assert PenaltySum(issues, c1) == CategoryPenalty(issues, Tailoring);
    assert PenaltySum(issues, c2) == PenaltySum(issues, c1) + CategoryPenalty(issues, Content);
    assert PenaltySum(issues, c3) == PenaltySum(issues, c2) + CategoryPenalty(issues, Sections);
  }

  /** `sum(category_penalties.values())`: at most the sum of the four caps, 60. */
  function TotalPenalty(issues: seq<Issue>): (t: nat)
    ensures t <= 60
  {
    PenaltySumOfCategories(issues);
    PenaltySum(issues, Categories)
  }

  // ---------------------------------------------------------------- score

  /** The overall score: the base less the total penalty, never below zero. */
  function Score(issues: seq<Issue>): (s: int)
    ensures 40 <= s <= 100
    ensures s == BaseScore - TotalPenalty(issues)
  {
    Max(BaseScore - TotalPenalty(issues), 0)
  }

  datatype Status = AtsSafe | Borderline | HighAutoRejectRisk
  {
    function Label(): string
    {
      match this
      case AtsSafe => "ATS-Safe"
      case Borderline => "Borderline"
      case HighAutoRejectRisk => "High Auto-Reject Risk"
    }

    /** How safe the status is: 2 for ATS-Safe down to 0 for high risk. */
    function Rank(): nat
    {
      match this
      case AtsSafe => 2
      case Borderline => 1
      case HighAutoRejectRisk => 0
    }
  }

  function StatusOf(score: int): (st: Status)
    ensures st == AtsSafe <==> score >= 75
    ensures st == Borderline <==> 55 <= score < 75
    ensures st == HighAutoRejectRisk <==> score < 55
  {
    if score >= 75 then AtsSafe
    else if score >= 55 then Borderline
    else HighAutoRejectRisk
  }

  /** A higher score never gets a less safe status. */
  lemma StatusMonotone(s: int, t: int)
    requires s <= t
    ensures StatusOf(s).Rank() <= StatusOf(t).Rank()
  {
  }

  /** Issues from one category alone cost at most 20 points and keep the resume ATS-Safe. */
  lemma OneCategoryStaysSafe(issues: seq<Issue>, c: Category)
    requires forall k :: 0 <= k < |issues| ==> issues[k].category == c
    ensures Score(issues) >= 80
    ensures StatusOf(Score(issues)) == AtsSafe
  {
    forall d | d != c
      ensures CategoryPenalty(issues, d) == 0
    {
      OtherCategoryUntouched(issues, c, d);
    }
    PenaltySumOfCategories(issues);
  }

  lemma {:induction false} OtherCategoryUntouched(issues: seq<Issue>, c: Category, d: Category)
    requires forall k :: 0 <= k < |issues| ==> issues[k].category == c
    requires d != c
    ensures CategoryPenalty(issues, d) == 0
  {
    if |issues| > 0 {
      OtherCategoryUntouched(issues[..|issues| - 1], c, d);
    }
  }

  // ------------------------------------------------------ category scores

  /** k is n / d rounded to the nearest integer, a tie going to the even one. */
  predicate NearestEven(n: int, d: int, k: int)
  {
    2 * Abs(n - k * d) <= d && (2 * Abs(n - k * d) == d ==> k % 2 == 0)
  }

  /** Python's `round(n / d)` on the exact ratio. */
  function RoundHalfEven(n: int, d: int): (k: int)
    requires d > 0
    ensures NearestEven(n, d, k)
  {
    var q, rem := n / d, n % d;
    assert n == q * d + rem;
    assert (q + 1) * d == q * d + d;
    if 2 * rem < d then q
    else if 2 * rem > d then q + 1
    else if q % 2 == 0 then q
    else q + 1
  }

  lemma MulMonotone(a: int, b: int, d: int)
    requires a <= b && d > 0
    ensures a * d <= b * d
  {
    assert b * d - a * d == (b - a) * d;
  }

  /** Different multiples of d are at least d apart, and 2d apart when the factors are. */
  lemma MulGap(lo: int, hi: int, d: int)
    requires lo < hi && d > 0
    ensures lo * d + d <= hi * d
    ensures lo + 2 <= hi ==> lo * d + 2 * d <= hi * d
  {
    MulMonotone(lo + 1, hi, d);
    assert (lo + 1) * d == lo * d + d;
    if lo + 2 <= hi {
      MulMonotone(lo + 2, hi, d);
      assert (lo + 2) * d == lo * d + 2 * d;
    }
  }

  /** Of two different integers, at most one is the nearest with ties to even. */
  lemma NearestEvenExcludes(n: int, d: int, lo: int, hi: int)
    requires d > 0 && lo < hi && NearestEven(n, d, lo)
    ensures !NearestEven(n, d, hi)
  {
    if NearestEven(n, d, hi) {
      MulGap(lo, hi, d);
    }
  }

  /** The rounding property pins the result down: no other integer has it. */
  lemma RoundHalfEvenUnique(n: int, d: int, k: int)
    requires d > 0 && NearestEven(n, d, k)
    ensures k == RoundHalfEven(n, d)
  {
    var j := RoundHalfEven(n, d);
    if k < j {
      NearestEvenExcludes(n, d, k, j);
    } else if j < k {
      NearestEvenExcludes(n, d, j, k);
    }
  }

  /** Rounding a fraction of k whole units stays within 0 and k. */
  lemma RoundWithin(n: int, d: int, m: nat)
    requires d > 0 && 0 <= n <= m * d
    ensures 0 <= RoundHalfEven(n, d) <= m
  {
    var k := RoundHalfEven(n, d);
    if k < 0 {
      MulMonotone(k, -1, d);
    }
    if k > m {
      MulMonotone(m + 1, k, d);
    }
  }

  /** A category's score for penalty p: its maximum less the penalty scaled from the cap to the maximum. */
  function ScaledScore(c: Category, p: nat): (s: nat)
    requires p <= Cap(c)
    ensures s <= MaxScore(c)
    ensures p == 0 ==> s == MaxScore(c)
    ensures p == Cap(c) ==> s == 0
  {
    ScaledPenaltyRange(c, p);
    var scaled := RoundHalfEven(p * MaxScore(c), Cap(c));
    Max(MaxScore(c) - scaled, 0)
  }

  /** The scaled penalty lies between 0 and the maximum, and is exactly those at the two ends. */
  lemma ScaledPenaltyRange(c: Category, p: nat)
    requires p <= Cap(c)
    ensures 0 <= RoundHalfEven(p * MaxScore(c), Cap(c)) <= MaxScore(c)
    ensures p == 0 ==> RoundHalfEven(p * MaxScore(c), Cap(c)) == 0
    ensures p == Cap(c) ==> RoundHalfEven(p * MaxScore(c), Cap(c)) == MaxScore(c)
  {
    MulMonotone(p, Cap(c), MaxScore(c));
    RoundWithin(p * MaxScore(c), Cap(c), MaxScore(c));
    if p == 0 {
      RoundHalfEvenUnique(0, Cap(c), 0);
    }
    if p == Cap(c) {
      RoundHalfEvenUnique(p * MaxScore(c), Cap(c), MaxScore(c));
    }
  }

  function CategoryScore(issues: seq<Issue>, c: Category): nat
  {
    ScaledScore(c, CategoryPenalty(issues, c))
  }

  /** The per-category scores, in table order. */
  function CategoryScores(issues: seq<Issue>): (t: seq<(Category, nat)>)
    ensures |t| == |Categories|
    ensures forall j :: 0 <= j < |t| ==> t[j].0 == Categories[j] && t[j].1 <= MaxScore(Categories[j])
  {
    seq(|Categories|, j requires 0 <= j < |Categories| => (Categories[j], CategoryScore(issues, Categories[j])))
  }

  function CategoryMaxScores(): seq<(Category, nat)>
  {
    seq(|Categories|, j requires 0 <= j < |Categories| => (Categories[j], MaxScore(Categories[j])))
  }

  /**
   * Penalties that scale to a half point round to the even neighbour: a
   * Content penalty of 15 scales to 22.5 and keeps 8 of 30 points, a penalty
   * of 7 scales to 10.5 and keeps 20.
   */
  lemma ContentTiesRoundToEven()
    ensures ScaledScore(Content, 15) == 8
    ensures ScaledScore(Content, 7) == 20
  {
    RoundHalfEvenUnique(15 * 30, 20, 22);
    RoundHalfEvenUnique(7 * 30, 20, 10);
  }

  // --------------------------------------------- ATS essentials penalties

  /** Each report that is an issue carries the category and penalty of its rule. */
  predicate Tagged(ids: seq<RuleId>, reports: seq<Option<Issue>>)
  {
    |reports| == |ids| &&
    forall k :: 0 <= k < |ids| && reports[k].Some? ==>
      reports[k].value.category == ids[k].CategoryOf() && reports[k].value.penalty == ids[k].PenaltyOf()
  }

  lemma ReportsAreTagged(r: ResumeData, ids: seq<RuleId>)
    requires NoBlankBullets(r)
    ensures Tagged(ids, Reports(r, ids))
  {
  }

  /** The penalties of the rules of category c that reported an issue, added up. */
  function FiredPenalty(ids: seq<RuleId>, reports: seq<Option<Issue>>, c: Category): nat
    requires |reports| == |ids|
  {
    if |ids| == 0 then 0
    else
      var n := |ids| - 1;
      FiredPenalty(ids[..n], reports[..n], c)
      + (if ids[n].CategoryOf() == c && reports[n].Some? then ids[n].PenaltyOf() else 0)
  }

  lemma {:induction false} RawPenaltyAppend(issues: seq<Issue>, more: seq<Issue>, c: Category)
    ensures RawPenalty(issues + more, c) == RawPenalty(issues, c) + RawPenalty(more, c)
  {
    if |more| == 0 {
      assert issues + more == issues;
    } else {
      var n := |more| - 1;
      RawPenaltyAppend(issues, more[..n], c);
      assert (issues + more)[..|issues| + n] == issues + more[..n];
    }
  }

  /** The raw penalty of the collected issues is the penalty of the rules that fired. */
  lemma {:induction false} RawPenaltyOfIssues(ids: seq<RuleId>, reports: seq<Option<Issue>>, c: Category)
    requires Tagged(ids, reports)
    ensures RawPenalty(Collect(reports), c) == FiredPenalty(ids, reports, c)
  {
    if |ids| > 0 {
      var n := |ids| - 1;
      var init := reports[..n];
      assert Tagged(ids[..n], init);
      RawPenaltyOfIssues(ids[..n], init, c);
      assert reports == init + [reports[n]];
      CollectStep(init, reports[n]);
      var extra := if reports[n].Some? then [reports[n].value] else [];
      RawPenaltyAppend(Collect(init), extra, c);
      assert RawPenalty(extra, c) == if ids[n].CategoryOf() == c && reports[n].Some? then ids[n].PenaltyOf() else 0 by {
        assert extra == [] || extra[..0] == [];
      }
    }
  }

  /** Reading the rule list up to position n + 1 adds rule n's share. */
  lemma FiredPrefix(ids: seq<RuleId>, reports: seq<Option<Issue>>, c: Category, n: nat)
    requires |reports| == |ids| && n < |ids|
    ensures FiredPenalty(ids[..n + 1], reports[..n + 1], c)
      == FiredPenalty(ids[..n], reports[..n], c)
       + (if ids[n].CategoryOf() == c && reports[n].Some? then ids[n].PenaltyOf() else 0)
  {
    assert ids[..n + 1][..n] == ids[..n];
    assert reports[..n + 1][..n] == reports[..n];
  }

  lemma {:induction false} FiredPenaltyElsewhere(ids: seq<RuleId>, reports: seq<Option<Issue>>, c: Category)
    requires |reports| == |ids|
    requires forall k :: 0 <= k < |ids| ==> ids[k].CategoryOf() != c
    ensures FiredPenalty(ids, reports, c) == 0
  {
    if |ids| > 0 {
      FiredPenaltyElsewhere(ids[..|ids| - 1], reports[..|ids| - 1], c);
    }
  }

  /**
   * Only three rules count towards ATS Essentials: the failure-mode rule
   * (position 7, penalty 10), the header-noise rule (position 10, penalty 6)
   * and the contact-information rule (position 11, penalty 4).
   */
  lemma AtsFiredPenalty(reports: seq<Option<Issue>>)
    requires |reports| == |AllRules|
    ensures FiredPenalty(AllRules, reports, AtsEssentials)
      == (if reports[7].Some? then 10 else 0)
       + (if reports[10].Some? then 6 else 0)
       + (if reports[11].Some? then 4 else 0)
  {
    var c := AtsEssentials;
    FiredPenaltyElsewhere(AllRules[..7], reports[..7], c);
    FiredPrefix(AllRules, reports, c, 7);
    FiredPrefix(AllRules, reports, c, 8);
    FiredPrefix(AllRules, reports, c, 9);
    FiredPrefix(AllRules, reports, c, 10);
    FiredPrefix(AllRules, reports, c, 11);
    assert AllRules[..12] == AllRules && reports[..12] == reports;
  }

  /**
   * The ATS Essentials penalty is always 0, 4 or 10: a noisy header (6) is
   * always accompanied by an ATS failure mode (10), which reaches the cap.
   */
  lemma AtsPenaltyIsZeroFourOrTen(r: ResumeData)
    requires NoBlankBullets(r)
    ensures CategoryPenalty(Issues(r, AllRules), AtsEssentials) in {0, 4, 10}
  {
    var c := AtsEssentials;
    var reports := Reports(r, AllRules);
    AtsFiredPenalty(reports);
    assert reports[10].Some? ==> reports[7].Some? by {
      assert reports[10] == RuleHeaderNoise(r);
      assert reports[7] == RuleAtsFailureModes(r);
      HeaderNoiseImpliesAtsFailure(r);
    }
    ReportsAreTagged(r, AllRules);
    RawPenaltyOfIssues(AllRules, reports, c);
    CategoryPenaltyIsCappedSum(Collect(reports), c);
  }

  // ----------------------------------------------------------- evaluation

  datatype Evaluation = Evaluation(
    score: int,
    status: Status,
    issues: seq<Issue>,
    categoryScores: seq<(Category, nat)>,
    categoryMaxScores: seq<(Category, nat)>)

  /** One more issue moves only its own category's penalty, by one capped step. */
  lemma PenaltyStep(issues: seq<Issue>, issue: Issue, c: Category)
    ensures CategoryPenalty(issues + [issue], c)
      == if issue.category == c then AddCapped(CategoryPenalty(issues, c), issue.penalty, Cap(c))
         else CategoryPenalty(issues, c)
  {
    assert (issues + [issue])[..|issues|] == issues;
  }

  /** `category_penalties[c]` of a default dictionary: 0 for a category not yet seen. */
  function Lookup(penalties: map<Category, nat>, c: Category): nat
  {
    if c in penalties then penalties[c] else 0
  }

  /**
   * Charges one more issue to its category: the penalty is added only while
   * the category is under its cap, and never beyond it.
   */
  function Charge(penalties: map<Category, nat>, issues: seq<Issue>, issue: Issue): (charged: map<Category, nat>)
    requires forall c :: Lookup(penalties, c) == CategoryPenalty(issues, c)
    ensures forall c :: Lookup(charged, c) == CategoryPenalty(issues + [issue], c)
  {
    var cat, pen := issue.category, issue.penalty;
    var current := Lookup(penalties, cat);
    var charged :=
      if current < Cap(cat) then
        var remaining := Cap(cat) - current;
        penalties[cat := current + Min(pen, remaining)]
      else penalties;
    assert forall c :: Lookup(charged, c) == CategoryPenalty(issues + [issue], c) by {
      forall c
        ensures Lookup(charged, c) == CategoryPenalty(issues + [issue], c)
      {
        PenaltyStep(issues, issue, c);
        assert Lookup(penalties, c) == CategoryPenalty(issues, c);
        if c == cat {
          assert Lookup(charged, c) == AddCapped(current, pen, Cap(c));
        } else {
          assert Lookup(charged, c) == Lookup(penalties, c);
        }
      }
    }
    charged
  }

  /** The rule loop: runs every rule, keeps each issue and accumulates its category's capped penalty. */
  method CollectIssues(r: ResumeData) returns (issues: seq<Issue>, penalties: map<Category, nat>)
    requires NoBlankBullets(r)
    ensures issues == Issues(r, AllRules)
    ensures forall c :: Lookup(penalties, c) == CategoryPenalty(issues, c)
  {
    ghost var reports := Reports(r, AllRules);
    issues := [];
    penalties := map[];
    for i := 0 to |AllRules|
      invariant issues == Collect(reports[..i])
      invariant forall c :: Lookup(penalties, c) == CategoryPenalty(issues, c)
    {
      var result := RunRule(AllRules[i], r);
      assert reports[..i + 1] == reports[..i] + [result];
      CollectStep(reports[..i], result);
      if result.Some? {
        penalties := Charge(penalties, issues, result.value);
        issues := issues + [result.value];
      }
    }
    assert reports[..|AllRules|] == reports;
  }

  /** Adds up the accumulated penalties of the four categories. */
  method SumPenalties(issues: seq<Issue>, penalties: map<Category, nat>) returns (total: int)
    requires forall c :: Lookup(penalties, c) == CategoryPenalty(issues, c)
    ensures total == TotalPenalty(issues)
  {
    total := 0;
    for j := 0 to |Categories|
      invariant total == PenaltySum(issues, Categories[..j])
    {
      assert Categories[..j + 1][..j] == Categories[..j];
      total := total + Lookup(penalties, Categories[j]);
    }
    assert Categories[..|Categories|] == Categories;
  }

  /** Scales each category's penalty from its cap to its maximum score. */
  method ScoreCategories(issues: seq<Issue>, penalties: map<Category, nat>) returns (scores: seq<(Category, nat)>)
    requires forall c :: Lookup(penalties, c) == CategoryPenalty(issues, c)
    ensures scores == CategoryScores(issues)
  {
    scores := [];
    for j := 0 to |Categories|
      invariant scores == CategoryScores(issues)[..j]
    {
      var cat := Categories[j];
      var penalty := Lookup(penalties, cat);
      var scaled := RoundHalfEven(penalty * MaxScore(cat), Cap(cat));
      scores := scores + [(cat, Max(MaxScore(cat) - scaled, 0))];
    }
  }

  /** Runs every rule and scores the resume, as the evaluation entry point does. */
  method EvaluateResume(r: ResumeData) returns (ev: Evaluation)
    requires NoBlankBullets(r)
    ensures ev.issues == Issues(r, AllRules)
    ensures ev.score == Score(ev.issues)
    ensures ev.status == StatusOf(ev.score)
    ensures ev.categoryScores == CategoryScores(ev.issues)
    ensures ev.categoryMaxScores == CategoryMaxScores()
  {
    var issues, penalties := CollectIssues(r);
    var total := SumPenalties(issues, penalties);
    var score := Max(BaseScore - total, 0);
    var scores := ScoreCategories(issues, penalties);
    var status;
    if score >= 75 {
      status := AtsSafe;
    } else if score >= 55 {
      status := Borderline;
    } else {
      status := HighAutoRejectRisk;
    }
    ev := Evaluation(score, status, issues, scores, CategoryMaxScores());
  }
}
