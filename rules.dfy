/**
 * The twelve ATS rules. Each inspects a `ResumeData` and reports either one
 * `Issue` (a fixed id, category, priority and penalty with explanatory text)
 * or nothing. Thresholds the source writes as floating-point ratios are kept
 * as exact ratios in the rules, and each rule's contract restates its
 * threshold as a comparison of whole numbers.
 */
module Rules {
  import opened Text
  import opened OrderedMap
  import opened Sequences
  import opened Resume
  import opened Optional
  import SectionDetector

  datatype Category = Tailoring | Content | Sections | AtsEssentials
  {
    /** The category's label in issues and score tables. */
    function Name(): string
    {
      match this
      case Tailoring => "Tailoring"
      case Content => "Content"
      case Sections => "Sections"
      case AtsEssentials => "ATS Essentials"
    }
  }

  /** The rules use two priorities only. */
  datatype Priority = High | Medium
  {
    function Name(): string
    {
      match this
      case High => "High"
      case Medium => "Medium"
    }
  }

  /**
   * The text an issue carries: one wording per rule. The message, reason
   * and fix are the rule's own sentences; the ATS-failure fix and the
   * missing-sections message list the names they were built from.
   */
  datatype Wording =
    | SoftSkillsWording
    | ActionVerbsWording
    | TailoredTitleWording
    | SectionOrderWording
    | ExperienceDensityWording
    | BulletQualityWording
    | TimelineWording
    | AtsFailureWording(risks: seq<string>)
    | MissingSectionsWording(missing: seq<string>)
    | FragmentedWording
    | HeaderNoiseWording
    | ContactInfoWording
  {
    function Message(): string
    {
      match this
      case SoftSkillsWording => "Limited soft skills detected"
      case ActionVerbsWording => "Bullet points lack strong action verbs"
      case TailoredTitleWording => "No clear professional title detected"
      case SectionOrderWording => "Suboptimal section order detected"
      case ExperienceDensityWording => "Low experience signal density detected"
      case BulletQualityWording => "Bullet points lack clear impact or technical focus"
      case TimelineWording => "Experience entries missing clear dates"
      case AtsFailureWording(_) => "Potential ATS failure modes detected"
      case MissingSectionsWording(missing) => "Missing essential sections: " + Join(", ", missing)
      case FragmentedWording => "Too many non-standard section headings detected"
      case HeaderNoiseWording => "Non-contact content detected in header area"
      case ContactInfoWording => "Incomplete contact information"
    }

    function Reason(): string
    {
      match this
      case SoftSkillsWording => "ATS favors resumes that balance technical and interpersonal skills"
      case ActionVerbsWording => "ATS prefers accomplishment-driven bullet points"
      case TailoredTitleWording => "ATS uses job titles to classify candidate profiles"
      case SectionOrderWording => "ATS scores resumes higher when sections follow a predictable flow"
      case ExperienceDensityWording => "ATS favors resumes where experience forms a strong portion of content"
      case BulletQualityWording => "ATS and recruiters favor bullets showing action, scope, and results"
      case TimelineWording => "ATS relies on timelines to assess career progression"
      case AtsFailureWording(_) => "Certain resume patterns can cause ATS parsing or ranking failures"
      case MissingSectionsWording(_) => "ATS expects a standard resume structure"
      case FragmentedWording => "ATS may fragment resume into unrelated sections"
      case HeaderNoiseWording => "ATS may misclassify content placed in headers"
      case ContactInfoWording => "Recruiters may not be able to contact you"
    }

    function Fix(): string
    {
      match this
      case SoftSkillsWording => "Integrate soft skills like leadership or communication into experience bullets"
      case ActionVerbsWording => "Start bullets with action verbs like Developed, Built, Led, or Analyzed"
      case TailoredTitleWording => "Add a clear professional title below your name (e.g., Data Analyst)"
      case SectionOrderWording => "Reorder sections as: Summary → Skills → Experience → Projects → Education"
      case ExperienceDensityWording => "Expand experience and project sections with concrete responsibilities and outcomes"
      case BulletQualityWording => "Rewrite bullets using Verb + Technical Object + Measurable Impact"
      case TimelineWording => "Add start and end dates for each role (Month Year – Month Year)"
      case AtsFailureWording(risks) => "Mitigate risks: " + Join(", ", risks)
      case MissingSectionsWording(_) => "Add clearly labeled Education, Skills, and Experience sections"
      case FragmentedWording => "Use standard section headings and avoid styling labels as headers"
      case HeaderNoiseWording => "Avoid placing experience or project lines near page top"
      case ContactInfoWording => "Ensure email and phone number are clearly visible at the top"
    }
  }

  /** A reported problem: which rule, where it counts, how much, and its text. */
  datatype Issue = Issue(
    id: string,
    category: Category,
    priority: Priority,
    penalty: nat,
    wording: Wording)
  {
    function Message(): string { wording.Message() }
    function Reason(): string { wording.Reason() }
    function Fix(): string { wording.Fix() }
  }

  // --------------------------------------------------------- vocabularies

  const ActionVerbs: set<string> :=
    {"developed", "built", "designed", "implemented", "led",
     "managed", "created", "optimized", "analyzed", "engineered"}

  const SoftSkills: seq<string> :=
    ["communication", "leadership", "teamwork",
     "problem solving", "adaptability", "collaboration"]

  const ExpectedOrder: seq<string> := ["summary", "skills", "experience", "projects", "education"]

  const TechObjects: seq<string> :=
    ["model", "system", "pipeline", "api", "application",
     "database", "dashboard", "algorithm", "service"]

  const ImpactKeywords: seq<string> :=
    ["increased", "reduced", "improved", "optimized",
     "achieved", "delivered", "boosted", "accuracy",
     "performance", "%", "percent"]

  /** The alternatives of the date pattern other than four digits. */
  const DateMonths: seq<string> :=
    ["jan", "feb", "mar", "apr", "may", "jun", "jul", "aug", "sep", "oct", "nov", "dec"]

  const TitleKeywords: seq<string> := ["engineer", "analyst", "developer", "scientist"]

  const StandardSections: set<string> :=
    {"education", "skills", "experience", "projects", "certifications", "summary", "languages"}

  const HeaderWordLimit: nat := 10

  const HeaderMisclassification: string := "Header Misclassification"
  const SectionFragmentation: string := "Section Fragmentation"
  const ExperienceUnderIndexing: string := "Experience Under-Indexing"

  // --------------------------------------------------------------- issues

  const SoftSkillsIssue: Issue := Issue("soft_skills", Tailoring, High, 5, SoftSkillsWording)
  const ActionVerbsIssue: Issue := Issue("action_verbs", Tailoring, High, 5, ActionVerbsWording)
  const TailoredTitleIssue: Issue := Issue("tailored_title", Tailoring, High, 5, TailoredTitleWording)
  const SectionOrderIssue: Issue := Issue("section_order", Sections, Medium, 6, SectionOrderWording)
  const ExperienceDensityIssue: Issue :=
    Issue("experience_density", Content, High, 7, ExperienceDensityWording)
  const BulletQualityIssue: Issue := Issue("bullet_quality", Content, High, 8, BulletQualityWording)
  const TimelineIssue: Issue := Issue("timeline_consistency", Content, High, 7, TimelineWording)

  function AtsFailureIssue(risks: seq<string>): Issue
  {
    Issue("ats_failure_modes", AtsEssentials, High, 10, AtsFailureWording(risks))
  }

  function MissingSectionsIssue(missing: seq<string>): Issue
  {
    Issue("missing_sections", Sections, High, 15, MissingSectionsWording(missing))
  }

  const FragmentedIssue: Issue := Issue("fragmented_structure", Sections, High, 8, FragmentedWording)
  const HeaderNoiseIssue: Issue := Issue("header_noise", AtsEssentials, Medium, 6, HeaderNoiseWording)
  const ContactInfoIssue: Issue := Issue("contact_info", AtsEssentials, Medium, 4, ContactInfoWording)

  // --------------------------------------------------------------- ratios

  /** Multiplying by a positive number keeps the order of two reals. */
  lemma ScalePositive(a: real, b: real, c: real)
    requires c > 0.0
    ensures a > b <==> a * c > b * c
    ensures a < b <==> a * c < b * c
  {
    assert a * c - b * c == (a - b) * c;
    if a > b {
      assert (a - b) * c > 0.0;
    }
    if a < b {
      assert (b - a) * c > 0.0;
    }
  }

  /** For positive denominators, comparing two exact ratios is comparing cross products. */
  lemma RatioCompare(w: int, n: int, p: int, q: int)
    requires n > 0 && q > 0
    ensures (w as real) / (n as real) > (p as real) / (q as real) <==> w * q > p * n
    ensures (w as real) / (n as real) < (p as real) / (q as real) <==> w * q < p * n
  {
    var x, y := (w as real) / (n as real), (p as real) / (q as real);
    var nq := (n as real) * (q as real);
    assert x * (n as real) == w as real;
    assert y * (q as real) == p as real;
    assert x * nq == (w * q) as real;
    assert y * nq == (p * n) as real;
    ScalePositive(x, y, nq);
  }

  /** The action-verb threshold: a ratio above 0.6 is five times the count above three times the total. */
  lemma AboveThreeFifths(w: int, n: int)
    requires n > 0
    ensures (w as real) / (n as real) > 0.6 <==> 5 * w > 3 * n
  {
    RatioCompare(w, n, 3, 5);
    assert 0.6 == 3.0 / 5.0;
  }

  lemma AboveTwoFifths(w: int, n: int)
    requires n > 0
    ensures (w as real) / (n as real) > 0.4 <==> 5 * w > 2 * n
  {
    RatioCompare(w, n, 2, 5);
    assert 0.4 == 2.0 / 5.0;
  }

  lemma BelowOneQuarter(w: int, n: int)
    requires n > 0
    ensures (w as real) / (n as real) < 0.25 <==> 4 * w < n
  {
    RatioCompare(w, n, 1, 4);
    assert 0.25 == 1.0 / 4.0;
  }

  /** No soft-skill term is listed twice (told apart by length, or by their third letter). */
  lemma SoftSkillsDistinct()
    ensures Distinct(SoftSkills)
  {
    assert |SoftSkills[0]| == 13 && |SoftSkills[1]| == 10 && |SoftSkills[2]| == 8;
    assert |SoftSkills[3]| == 15 && |SoftSkills[4]| == 12 && |SoftSkills[5]| == 13;
    assert SoftSkills[0][2] == 'm' && SoftSkills[5][2] == 'l';
  }

  /** No canonical section is listed twice (their names differ in length). */
  lemma ExpectedOrderDistinct()
    ensures Distinct(ExpectedOrder)
  {
    assert |ExpectedOrder[0]| == 7 && |ExpectedOrder[1]| == 6 && |ExpectedOrder[2]| == 10;
    assert |ExpectedOrder[3]| == 8 && |ExpectedOrder[4]| == 9;
  }

  // ------------------------------------------------------------ tailoring

  /** Fewer than three of the six soft-skill terms appear anywhere in the lower-cased text. */
  function RuleSoftSkills(r: ResumeData): (o: Option<Issue>)
    ensures o == None || o == Some(SoftSkillsIssue)
    ensures o.Some? <==> |Found(Lower(r.rawText), SoftSkills)| < 3
  {
    var text := Lower(r.rawText);
    SoftSkillsDistinct();
    CountContainedIsCardinality(text, SoftSkills);
    if CountContained(text, SoftSkills) < 3 then Some(SoftSkillsIssue) else None
  }

  /** The characters the verb check strips from both ends of a bullet. */
  const VerbStripChars: set<char> := {'•', '-', ' '}

  /** The token the verb check looks up: stripped, cut at the first space, lower-cased. */
  function LeadToken(b: string): string
  {
    Lower(FirstSpaceField(StripChars(b, VerbStripChars)))
  }

  predicate LacksActionVerb(b: string)
  {
    LeadToken(b) !in ActionVerbs
  }

  /** How many bullets do not open with an action verb. */
  function CountLackingVerb(bs: seq<string>): (n: nat)
    ensures n <= |bs|
  {
    if |bs| == 0 then 0
    else CountLackingVerb(bs[..|bs| - 1]) + (if LacksActionVerb(bs[|bs| - 1]) then 1 else 0)
  }

  /** More than 60% of the bullets do not open with an action verb. */
  function RuleActionVerbs(r: ResumeData): (o: Option<Issue>)
    ensures o == None || o == Some(ActionVerbsIssue)
    ensures o.Some? <==> |r.bullets| > 0 && 5 * CountLackingVerb(r.bullets) > 3 * |r.bullets|
  {
    if |r.bullets| == 0 then None
    else
      AboveThreeFifths(CountLackingVerb(r.bullets), |r.bullets|);
      if (CountLackingVerb(r.bullets) as real) / (|r.bullets| as real) > 0.6
      then Some(ActionVerbsIssue) else None
  }

  /** The rule as the source runs it: one pass over the bullets counting the weak ones. */
  method RunActionVerbs(r: ResumeData) returns (o: Option<Issue>)
    ensures o == RuleActionVerbs(r)
  {
    if |r.bullets| == 0 {
      return None;
    }
    var weak := 0;
    for i := 0 to |r.bullets|
      invariant weak == CountLackingVerb(r.bullets[..i])
    {
      var first := LeadToken(r.bullets[i]);
      if first !in ActionVerbs {
        weak := weak + 1;
      }
      assert r.bullets[..i + 1][..i] == r.bullets[..i];
    }
    assert r.bullets[..|r.bullets|] == r.bullets;
    if (weak as real) / (|r.bullets| as real) > 0.6 {
      o := Some(ActionVerbsIssue);
    } else {
      o := None;
    }
  }

  /** Every action verb starts with a lower-case letter. */
  lemma ActionVerbsStartWithLetters()
    ensures forall v :: v in ActionVerbs ==> |v| > 0 && IsLowerChar(v[0])
  {
  }

  /** So a token opening with anything else is not an action verb. */
  lemma NonLetterOpensNoVerb(t: string)
    requires |t| > 0 && !IsLowerChar(t[0])
    ensures t !in ActionVerbs
  {
    ActionVerbsStartWithLetters();
  }

  /**
   * Only '•' and '-' are stripped before the lookup, so a bullet that opens
   * with any other glyph the extractor collects never counts as opening with
   * an action verb.
   */
  lemma {:induction false} UnstrippedGlyphLacksVerb(b: string)
    requires |b| > 0 && b[0] in BulletGlyphs - VerbStripChars
    ensures LacksActionVerb(b)
  {
    var stripped := StripChars(b, VerbStripChars);
    assert stripped[0] == b[0];
    var field := FirstSpaceField(stripped);
    assert |field| > 0 && field[0] == b[0] by {
      assert stripped[0] != ' ';
    }
    assert !IsUpperChar(b[0]) && !IsLowerChar(b[0]);
    assert LeadToken(b)[0] == b[0];
    NonLetterOpensNoVerb(LeadToken(b));
  }

  /** None of the four title keywords sits anywhere in the lower-cased header. */
  function RuleTailoredTitle(r: ResumeData): (o: Option<Issue>)
    ensures o == None || o == Some(TailoredTitleIssue)
    ensures o.Some? <==>
      !exists k: nat, i: nat :: k < |TitleKeywords| && OccursAt(Lower(r.headerText), TitleKeywords[k], i)
  {
    AnyContainedIffOccurs(Lower(r.headerText), TitleKeywords);
    if !AnyContained(Lower(r.headerText), TitleKeywords) then Some(TailoredTitleIssue) else None
  }

  // --------------------------------------------------- section order

  /** `[s for s in keys if s in EXPECTED_ORDER]` */
  function CanonicalPresent(keys: seq<string>): (a: seq<string>)
    ensures forall j :: 0 <= j < |a| ==> a[j] in ExpectedOrder
    ensures forall s :: s in a <==> s in keys && s in ExpectedOrder
    ensures IsSubsequence(a, keys)
  {
    if |keys| == 0 then []
    else
      var init, last := keys[..|keys| - 1], keys[|keys| - 1];
      var a := CanonicalPresent(init);
      assert forall s :: s in keys <==> s in init || s == last by {
        assert keys == init + [last];
      }
      if last in ExpectedOrder then
        var b := a + [last];
        assert b[..|b| - 1] == a;
        b
      else
        a
  }

  /** Filtering keeps a list without repeats free of repeats. */
  lemma {:induction false} CanonicalPresentDistinct(keys: seq<string>)
    requires Distinct(keys)
    ensures Distinct(CanonicalPresent(keys))
  {
    if |keys| > 0 {
      var init, last := keys[..|keys| - 1], keys[|keys| - 1];
      CanonicalPresentDistinct(init);
      assert last !in init;
    }
  }

  /** The source's disorder, `sum(abs(EXPECTED_ORDER.index(s) - actual.index(s)))`, from position j on. */
  function DisorderFrom(actual: seq<string>, j: nat): nat
    requires forall k :: 0 <= k < |actual| ==> actual[k] in ExpectedOrder
    requires j <= |actual|
    decreases |actual| - j
  {
    if j == |actual| then 0
    else Abs(IndexOf(ExpectedOrder, actual[j]) - IndexOf(actual, actual[j])) + DisorderFrom(actual, j + 1)
  }

  /** How far each entry sits from its canonical position, from position j on. */
  function DisplacementFrom(actual: seq<string>, j: nat): nat
    requires forall k :: 0 <= k < |actual| ==> actual[k] in ExpectedOrder
    requires j <= |actual|
    decreases |actual| - j
  {
    if j == |actual| then 0
    else Abs(IndexOf(ExpectedOrder, actual[j]) - j) + DisplacementFrom(actual, j + 1)
  }

  /** Without repeats, an entry's first index is its position, so disorder is displacement. */
  lemma {:induction false} DisorderIsDisplacement(actual: seq<string>, j: nat)
    requires forall k :: 0 <= k < |actual| ==> actual[k] in ExpectedOrder
    requires j <= |actual| && Distinct(actual)
    ensures DisorderFrom(actual, j) == DisplacementFrom(actual, j)
    decreases |actual| - j
  {
    if j < |actual| {
      assert IndexOf(actual, actual[j]) == j;
      DisorderIsDisplacement(actual, j + 1);
    }
  }

  /**
   * At least three canonical sections are present and together they sit at
   * least six places away from their canonical positions.
   */
  function RuleSectionOrder(r: ResumeData): (o: Option<Issue>)
    ensures o == None || o == Some(SectionOrderIssue)
    ensures var a := CanonicalPresent(SectionKeys(r));
      o.Some? <==> |a| >= 3 && DisplacementFrom(a, 0) >= 6
  {
    var actual := CanonicalPresent(SectionKeys(r));
    if |actual| < 3 then None
    else
      CanonicalPresentDistinct(SectionKeys(r));
      DisorderIsDisplacement(actual, 0);
      if DisorderFrom(actual, 0) >= 6 then Some(SectionOrderIssue) else None
  }

  /** Sections that appear exactly in the canonical order are never reported. */
  lemma {:induction false} CanonicalOrderIsNotReported(r: ResumeData)
    requires CanonicalPresent(SectionKeys(r)) <= ExpectedOrder
    ensures RuleSectionOrder(r) == None
  {
    var a := CanonicalPresent(SectionKeys(r));
    ExpectedOrderDistinct();
    PrefixInPlace(a, ExpectedOrder);
    DisplacementZero(a, 0);
  }

  /** In a list without repeats, each entry of a prefix is first found at its own position. */
  lemma PrefixInPlace(a: seq<string>, xs: seq<string>)
    requires a <= xs && Distinct(xs)
    ensures forall j :: 0 <= j < |a| ==> a[j] in xs && IndexOf(xs, a[j]) == j
  {
    forall j | 0 <= j < |a|
      ensures a[j] in xs && IndexOf(xs, a[j]) == j
    {
      assert xs[j] == a[j];
    }
  }

  lemma {:induction false} DisplacementZero(a: seq<string>, j: nat)
    requires forall k :: 0 <= k < |a| ==> a[k] in ExpectedOrder
    requires forall k :: 0 <= k < |a| ==> IndexOf(ExpectedOrder, a[k]) == k
    requires j <= |a|
    ensures DisplacementFrom(a, j) == 0
    decreases |a| - j
  {
    if j < |a| {
      DisplacementZero(a, j + 1);
    }
  }

  /** Each canonical section's position in the canonical order. */
  lemma ExpectedPositions()
    ensures "summary" in ExpectedOrder && IndexOf(ExpectedOrder, "summary") == 0
    ensures "skills" in ExpectedOrder && IndexOf(ExpectedOrder, "skills") == 1
    ensures "experience" in ExpectedOrder && IndexOf(ExpectedOrder, "experience") == 2
    ensures "projects" in ExpectedOrder && IndexOf(ExpectedOrder, "projects") == 3
    ensures "education" in ExpectedOrder && IndexOf(ExpectedOrder, "education") == 4
  {
    assert ExpectedOrder[0] == "summary";
    assert ExpectedOrder[1] == "skills";
    assert ExpectedOrder[2] == "experience";
    assert ExpectedOrder[3] == "projects";
    assert ExpectedOrder[4] == "education";
  }

  /**
   * Skills and summary swapped ahead of experience (whatever other sections
   * surround them): disorder 2, not reported.
   */
  lemma SwappedSummaryIsNotReported(r: ResumeData)
    requires CanonicalPresent(SectionKeys(r)) == ["skills", "summary", "experience"]
    ensures RuleSectionOrder(r) == None
  {
    var a: seq<string> := ["skills", "summary", "experience"];
    ExpectedPositions();
    assert DisplacementFrom(a, 2) == 0;
    assert DisplacementFrom(a, 0) == 2;
  }

  /**
   * Experience, projects and education follow the canonical order, yet each
   * sits two places before its canonical position, so the rule reports them.
   */
  lemma InOrderSubsetIsReported(r: ResumeData)
    requires CanonicalPresent(SectionKeys(r)) == ["experience", "projects", "education"]
    ensures RuleSectionOrder(r) == Some(SectionOrderIssue)
  {
    var a: seq<string> := ["experience", "projects", "education"];
    ExpectedPositions();
    assert DisplacementFrom(a, 2) == 2;
    assert DisplacementFrom(a, 0) == 6;
  }

  // ------------------------------------------------------------- content

  /** The lines of the experience and projects sections, in that order. */
  function ExperienceAndProjects(r: ResumeData): seq<string>
  {
    SectionLines(r, "experience") + SectionLines(r, "projects")
  }

  /** Joining with spaces gives the empty text exactly for no lines or one empty line. */
  lemma {:induction false} JoinEmptyIff(xs: seq<string>)
    ensures Join(" ", xs) == "" <==> xs == [] || xs == [""]
  {
    if |xs| > 1 {
      assert |Join(" ", xs)| >= |xs[0] + " "|;
    }
  }

  /**
   * There is some experience or project text, and it holds fewer than a
   * quarter of the resume's words.
   */
  function RuleExperienceDensity(r: ResumeData): (o: Option<Issue>)
    ensures o == None || o == Some(ExperienceDensityIssue)
    ensures var xs := ExperienceAndProjects(r);
      o.Some? <==>
        (xs != [] && xs != [""]
         && 4 * (SumWords(SectionLines(r, "experience")) + SumWords(SectionLines(r, "projects")))
            < Max(r.wordCount, 1))
  {
    SumWordsAppend(SectionLines(r, "experience"), SectionLines(r, "projects"));
    var text := Join(" ", ExperienceAndProjects(r));
    JoinEmptyIff(ExperienceAndProjects(r));
    if text == "" then None
    else
      CountWordsOfJoin(ExperienceAndProjects(r));
      BelowOneQuarter(CountWords(text), Max(r.wordCount, 1));
      if (CountWords(text) as real) / (Max(r.wordCount, 1) as real) < 0.25
      then Some(ExperienceDensityIssue) else None
  }

  /** The bullet's first word is an action verb. */
  predicate HasVerb(b: string)
  {
    FirstWord(Lower(b)) in ActionVerbs
  }

  predicate HasObject(b: string)
  {
    AnyContained(Lower(b), TechObjects)
  }

  predicate HasImpact(b: string)
  {
    AnyContained(Lower(b), ImpactKeywords)
  }

  /** How many of verb, technical object and measurable impact a bullet shows. */
  function Signals(b: string): (n: nat)
    ensures n <= 3
  {
    (if HasVerb(b) then 1 else 0) + (if HasObject(b) then 1 else 0) + (if HasImpact(b) then 1 else 0)
  }

  predicate WeakBullet(b: string)
  {
    Signals(b) < 2
  }

  function CountWeakBullets(bs: seq<string>): (n: nat)
    ensures n <= |bs|
  {
    if |bs| == 0 then 0
    else CountWeakBullets(bs[..|bs| - 1]) + (if WeakBullet(bs[|bs| - 1]) then 1 else 0)
  }

  /**
   * More than 40% of the bullets show fewer than two of the three signals.
   * The source fails on a blank bullet, hence the precondition.
   */
  function RuleBulletQuality(r: ResumeData): (o: Option<Issue>)
    requires NoBlankBullets(r)
    ensures o == None || o == Some(BulletQualityIssue)
    ensures o.Some? <==> |r.bullets| > 0 && 5 * CountWeakBullets(r.bullets) > 2 * |r.bullets|
  {
    if |r.bullets| == 0 then None
    else
      AboveTwoFifths(CountWeakBullets(r.bullets), |r.bullets|);
      if (CountWeakBullets(r.bullets) as real) / (|r.bullets| as real) > 0.4
      then Some(BulletQualityIssue) else None
  }

  /** The rule as the source runs it: one pass over the bullets counting the weak ones. */
  method RunBulletQuality(r: ResumeData) returns (o: Option<Issue>)
    requires NoBlankBullets(r)
    ensures o == RuleBulletQuality(r)
  {
    if |r.bullets| == 0 {
      return None;
    }
    var weak := 0;
    for i := 0 to |r.bullets|
      invariant weak == CountWeakBullets(r.bullets[..i])
    {
      var bullet := r.bullets[i];
      var words := FirstWord(Lower(bullet));
      var hasVerb := words in ActionVerbs;
      var hasObject := AnyContained(Lower(bullet), TechObjects);
      var hasImpact := AnyContained(Lower(bullet), ImpactKeywords);
      var signals := (if hasVerb then 1 else 0) + (if hasObject then 1 else 0) + (if hasImpact then 1 else 0);
      if signals < 2 {
        weak := weak + 1;
      }
      assert r.bullets[..i + 1][..i] == r.bullets[..i];
    }
    assert r.bullets[..|r.bullets|] == r.bullets;
    if (weak as real) / (|r.bullets| as real) > 0.4 {
      o := Some(BulletQualityIssue);
    } else {
      o := None;
    }
  }

  /**
   * An extracted bullet's first word starts with its glyph, so it never
   * counts as a verb: such a bullet is strong only with both a technical
   * object and an impact term.
   */
  lemma {:induction false} ExtractedBulletHasNoVerb(b: string)
    requires ExtractedBullet(b)
    ensures !HasVerb(b)
    ensures WeakBullet(b) <==> !(HasObject(b) && HasImpact(b))
  {
    var low := Lower(b);
    assert low[0] == b[0];
    FirstWordOpensText(low);
    NonLetterOpensNoVerb(FirstWord(low));
  }

  /** A line carries a month abbreviation or four digits in a row. */
  predicate IsDateLine(l: string)
  {
    AnyContained(Lower(l), DateMonths) || HasDigitRun(Lower(l), 4)
  }

  function CountDateLines(ls: seq<string>): (n: nat)
    ensures n <= |ls|
  {
    if |ls| == 0 then 0
    else CountDateLines(ls[..|ls| - 1]) + (if IsDateLine(ls[|ls| - 1]) then 1 else 0)
  }

  /** At least one dated line is counted exactly when some line is dated. */
  lemma {:induction false} SomeDatedLine(ls: seq<string>)
    ensures CountDateLines(ls) >= 1 <==> exists i :: 0 <= i < |ls| && IsDateLine(ls[i])
  {
    if |ls| > 0 {
      var init := ls[..|ls| - 1];
      SomeDatedLine(init);
      assert forall i :: 0 <= i < |init| ==> init[i] == ls[i];
    }
  }

  /** At least two dated lines are counted exactly when two different lines are dated. */
  lemma {:induction false} TwoDatedLines(ls: seq<string>)
    ensures CountDateLines(ls) >= 2 <==>
      exists i, j :: 0 <= i < j < |ls| && IsDateLine(ls[i]) && IsDateLine(ls[j])
  {
    if |ls| > 0 {
      var init, last := ls[..|ls| - 1], |ls| - 1;
      TwoDatedLines(init);
      SomeDatedLine(init);
      assert forall i :: 0 <= i < |init| ==> init[i] == ls[i];
      if exists i, j :: 0 <= i < j < |ls| && IsDateLine(ls[i]) && IsDateLine(ls[j]) {
        var i, j :| 0 <= i < j < |ls| && IsDateLine(ls[i]) && IsDateLine(ls[j]);
        if j < last {
          assert IsDateLine(init[i]) && IsDateLine(init[j]);
        } else {
          assert IsDateLine(init[i]);
        }
      }
    }
  }

  /** The experience section has lines, but fewer than two of them are dated. */
  function RuleTimelineConsistency(r: ResumeData): (o: Option<Issue>)
    ensures o == None || o == Some(TimelineIssue)
    ensures var exp := SectionLines(r, "experience");
      o.Some? <==>
        (exp != [] && !exists i, j :: 0 <= i < j < |exp| && IsDateLine(exp[i]) && IsDateLine(exp[j]))
  {
    var exp := SectionLines(r, "experience");
    if exp == [] then None
    else
      TwoDatedLines(exp);
      if CountDateLines(exp) < 2 then Some(TimelineIssue) else None
  }

  /** The date test sees digits the same way whether or not the line is lower-cased. */
  lemma DateLineDigits(l: string)
    ensures IsDateLine(l) <==> AnyContained(Lower(l), DateMonths) || HasDigitRun(l, 4)
  {
    LowerKeepsDigitRuns(l, 4);
  }

  // -------------------------------------------------------- ATS failures

  function HeaderWords(r: ResumeData): nat
  {
    CountWords(r.headerText)
  }

  /** The three risks, each listed when its condition holds, always in this order. */
  function Risks(r: ResumeData): seq<string>
  {
    (if HeaderWords(r) > HeaderWordLimit then [HeaderMisclassification] else [])
    + (if |r.sections| > 12 then [SectionFragmentation] else [])
    + (if CountWords(Join(" ", SectionLines(r, "experience"))) < 150 then [ExperienceUnderIndexing] else [])
  }

  /** Reported when the header is long, the sections many, or the experience text short. */
  function RuleAtsFailureModes(r: ResumeData): (o: Option<Issue>)
    ensures o.Some? <==>
      HeaderWords(r) > 10 || |r.sections| > 12 || SumWords(SectionLines(r, "experience")) < 150
    ensures o.Some? ==> o.value == AtsFailureIssue(Risks(r))
  {
    CountWordsOfJoin(SectionLines(r, "experience"));
    var risks := Risks(r);
    if risks != [] then Some(AtsFailureIssue(risks)) else None
  }

  /** Each risk is named exactly when its condition holds, and the names keep a fixed order. */
  lemma RisksNamed(r: ResumeData)
    ensures HeaderMisclassification in Risks(r) <==> HeaderWords(r) > 10
    ensures SectionFragmentation in Risks(r) <==> |r.sections| > 12
    ensures ExperienceUnderIndexing in Risks(r) <==> SumWords(SectionLines(r, "experience")) < 150
    ensures IsSubsequence(Risks(r), [HeaderMisclassification, SectionFragmentation, ExperienceUnderIndexing])
  {
    CountWordsOfJoin(SectionLines(r, "experience"));
    var h := HeaderWords(r) > HeaderWordLimit;
    var f := |r.sections| > 12;
    var e := CountWords(Join(" ", SectionLines(r, "experience"))) < 150;
    var empty: seq<string> := [];
    SubsequenceExtend(empty, empty, HeaderMisclassification, h);
    var a1 := empty + (if h then [HeaderMisclassification] else []);
    SubsequenceExtend(a1, empty + [HeaderMisclassification], SectionFragmentation, f);
    var a2 := a1 + (if f then [SectionFragmentation] else []);
    SubsequenceExtend(a2, empty + [HeaderMisclassification] + [SectionFragmentation], ExperienceUnderIndexing, e);
    assert a2 + (if e then [ExperienceUnderIndexing] else []) == Risks(r);
    assert empty + [HeaderMisclassification] + [SectionFragmentation] + [ExperienceUnderIndexing]
      == [HeaderMisclassification, SectionFragmentation, ExperienceUnderIndexing];
  }

  /** A noisy header is always also an ATS failure mode. */
  lemma HeaderNoiseImpliesAtsFailure(r: ResumeData)
    ensures RuleHeaderNoise(r).Some? ==> RuleAtsFailureModes(r).Some?
  {
  }

  /** A resume with no experience lines is always an ATS failure mode. */
  lemma MissingExperienceImpliesAtsFailure(r: ResumeData)
    requires SectionLines(r, "experience") == []
    ensures RuleAtsFailureModes(r).Some?
  {
  }

  // ------------------------------------------------ structure, essentials

  /** The required sections absent from keys, in the order education, skills, experience. */
  function MissingRequired(keys: seq<string>): (m: seq<string>)
    ensures forall s :: s in m <==> s in {"education", "skills", "experience"} && s !in keys
    ensures Distinct(m)
  {
    (if "education" in keys then [] else ["education"])
    + (if "skills" in keys then [] else ["skills"])
    + (if "experience" in keys then [] else ["experience"])
  }

  /** Some of education, skills and experience is not a section. */
  function RuleMissingSections(r: ResumeData): (o: Option<Issue>)
    ensures o.Some? <==> !({"education", "skills", "experience"} <= set k | k in SectionKeys(r))
    ensures o.Some? ==> o.value == MissingSectionsIssue(MissingRequired(SectionKeys(r)))
  {
    var missing := MissingRequired(SectionKeys(r));
    if missing != [] then Some(MissingSectionsIssue(missing)) else None
  }

  function CountNonStandard(keys: seq<string>): (n: nat)
    ensures n <= |keys|
  {
    if |keys| == 0 then 0
    else CountNonStandard(keys[..|keys| - 1]) + (if keys[|keys| - 1] in StandardSections then 0 else 1)
  }

  ghost function NonStandard(keys: seq<string>): set<string>
  {
    set k | k in keys && k !in StandardSections
  }

  /** Over distinct keys the count is the number of different non-standard labels. */
  lemma {:induction false} CountNonStandardIsCardinality(keys: seq<string>)
    requires Distinct(keys)
    ensures CountNonStandard(keys) == |NonStandard(keys)|
  {
    if |keys| > 0 {
      var init, last := keys[..|keys| - 1], keys[|keys| - 1];
      CountNonStandardIsCardinality(init);
      assert keys == init + [last];
      assert last !in init;
      assert forall k :: k in keys <==> k in init || k == last;
      if last !in StandardSections {
        assert NonStandard(keys) == NonStandard(init) + {last};
      } else {
        assert NonStandard(keys) == NonStandard(init);
      }
    }
  }

  /** At least five section labels are not standard ones. */
  function RuleFragmentedStructure(r: ResumeData): (o: Option<Issue>)
    ensures o == None || o == Some(FragmentedIssue)
    ensures o.Some? <==> |NonStandard(SectionKeys(r))| >= 5
  {
    CountNonStandardIsCardinality(SectionKeys(r));
    if CountNonStandard(SectionKeys(r)) >= 5 then Some(FragmentedIssue) else None
  }

  /** The catch-all label counts against the resume: detected sections always hold one non-standard label. */
  lemma DetectedSectionsHaveNonStandardLabel(r: ResumeData)
    requires SectionDetector.UnknownLabel in SectionKeys(r)
    ensures SectionDetector.UnknownLabel in NonStandard(SectionKeys(r))
  {
  }

  /** The header holds more than ten words. */
  function RuleHeaderNoise(r: ResumeData): (o: Option<Issue>)
    ensures o == None || o == Some(HeaderNoiseIssue)
    ensures o.Some? <==> CountWords(r.headerText) > 10
  {
    if HeaderWords(r) > HeaderWordLimit then Some(HeaderNoiseIssue) else None
  }

  /** The text lacks an '@' or a run of ten digits; lower-casing changes neither. */
  function RuleContactInfo(r: ResumeData): (o: Option<Issue>)
    ensures o == None || o == Some(ContactInfoIssue)
    ensures o.Some? <==> '@' !in r.rawText || !HasDigitRun(r.rawText, 10)
  {
    var text := Lower(r.rawText);
    LowerKeepsUncased(r.rawText, '@');
    LowerKeepsDigitRuns(r.rawText, 10);
    var hasEmail := '@' in text;
    var hasPhone := HasDigitRun(text, 10);
    if !(hasEmail && hasPhone) then Some(ContactInfoIssue) else None
  }

  // ------------------------------------------------------------- dispatch

  /** The rules by name, in the order the scorer runs them. */
  datatype RuleId =
    | SoftSkillsRule | ActionVerbsRule | TailoredTitleRule
    | SectionOrderRule | ExperienceDensityRule | BulletQualityRule | TimelineRule | AtsFailureModesRule
    | MissingSectionsRule | FragmentedStructureRule | HeaderNoiseRule | ContactInfoRule
  {
    /** The id the rule's issue carries. */
    function Name(): string
    {
      match this
      case SoftSkillsRule => "soft_skills"
      case ActionVerbsRule => "action_verbs"
      case TailoredTitleRule => "tailored_title"
      case SectionOrderRule => "section_order"
      case ExperienceDensityRule => "experience_density"
      case BulletQualityRule => "bullet_quality"
      case TimelineRule => "timeline_consistency"
      case AtsFailureModesRule => "ats_failure_modes"
      case MissingSectionsRule => "missing_sections"
      case FragmentedStructureRule => "fragmented_structure"
      case HeaderNoiseRule => "header_noise"
      case ContactInfoRule => "contact_info"
    }

    function CategoryOf(): Category
    {
      match this
      case SoftSkillsRule | ActionVerbsRule | TailoredTitleRule => Tailoring
      case ExperienceDensityRule | BulletQualityRule | TimelineRule => Content
      case SectionOrderRule | MissingSectionsRule | FragmentedStructureRule => Sections
      case AtsFailureModesRule | HeaderNoiseRule | ContactInfoRule => AtsEssentials
    }

    function PriorityOf(): Priority
    {
      match this
      case SectionOrderRule | HeaderNoiseRule | ContactInfoRule => Medium
      case _ => High
    }

    function PenaltyOf(): nat
    {
      match this
      case SoftSkillsRule => 5
      case ActionVerbsRule => 5
      case TailoredTitleRule => 5
      case SectionOrderRule => 6
      case ExperienceDensityRule => 7
      case BulletQualityRule => 8
      case TimelineRule => 7
      case AtsFailureModesRule => 10
      case MissingSectionsRule => 15
      case FragmentedStructureRule => 8
      case HeaderNoiseRule => 6
      case ContactInfoRule => 4
    }
  }

  /** Calling one rule: any issue it reports carries that rule's id, category, priority and penalty. */
  function ApplyRule(id: RuleId, r: ResumeData): (o: Option<Issue>)
    requires NoBlankBullets(r)
    ensures o.Some? ==>
      && o.value.id == id.Name()
      && o.value.category == id.CategoryOf()
      && o.value.priority == id.PriorityOf()
      && o.value.penalty == id.PenaltyOf()
  {
    match id
    case SoftSkillsRule => RuleSoftSkills(r)
    case ActionVerbsRule => RuleActionVerbs(r)
    case TailoredTitleRule => RuleTailoredTitle(r)
    case SectionOrderRule => RuleSectionOrder(r)
    case ExperienceDensityRule => RuleExperienceDensity(r)
    case BulletQualityRule => RuleBulletQuality(r)
    case TimelineRule => RuleTimelineConsistency(r)
    case AtsFailureModesRule => RuleAtsFailureModes(r)
    case MissingSectionsRule => RuleMissingSections(r)
    case FragmentedStructureRule => RuleFragmentedStructure(r)
    case HeaderNoiseRule => RuleHeaderNoise(r)
    case ContactInfoRule => RuleContactInfo(r)
  }

  /** Runs one rule, the two bullet rules by their loops. */
  method RunRule(id: RuleId, r: ResumeData) returns (o: Option<Issue>)
    requires NoBlankBullets(r)
    ensures o == ApplyRule(id, r)
  {
    match id
    case ActionVerbsRule =>
      o := RunActionVerbs(r);
    case BulletQualityRule =>
      o := RunBulletQuality(r);
    case _ =>
      o := ApplyRule(id, r);
  }
}
