# ATS resume analysis, modelled in Dafny

This project models the analysis pipeline of the ATS Resume Scanner
(`backend/ats_core`). The pipeline takes an already-extracted resume, the
`ResumeData` record, and produces four things:

1. **Section detection** (`section_detector.py`).
   - A capitalisation heuristic (`is_heading`) decides which lines are headings.
   - `normalize_section_name` turns each heading into a label. The earliest
     entry of a fixed vocabulary wins; otherwise the cleaned heading text
     itself is the label.
   - `detect_sections` files every other line under the label of the heading
     in force. The result is an insertion-ordered dictionary seeded with
     `"unknown"`.
2. **Twelve rules** (`rules.py`). Each rule reports either nothing or one issue
   with a fixed id, category, priority and penalty, plus its message, reason
   and fix.
3. **The scorer** (`scorer.py`).
   - It runs the rules in a fixed order and keeps the issues.
   - It accumulates each category's penalty up to that category's cap.
   - It computes a score out of 100, a three-way status, and per-category
     scores. A category score is the category's maximum less its penalty
     scaled from the cap onto that maximum (rounded half to even), and never
     below 0.
4. **The recommendation grouper** (`recommendations.py`). It groups the issues
   by priority and keeps each issue's category, message and fix.

Modules:

| module | file | models |
|---|---|---|
| `Text` | text.dfy | The Python `str` operations the pipeline uses, on ASCII: `lower`, substring `in`, `split()`, `split(" ")[0]`, `strip`, `" ".join`, and `\d{n}` as a digit-run predicate |
| `OrderedMap` | ordered_map.dfy | An insertion-ordered `dict` as a sequence of (key, value) pairs with distinct keys, plus `list.index` |
| `Sequences` | sequences.dfy | Order-preserving subsequences, used to state that filters and groupings keep order |
| `Resume` | resume.dfy | `ResumeData`, and the shape the extractor gives its lines and bullets |
| `SectionDetector` | section_detector.dfy | `is_heading`, `normalize_section_name`, `detect_sections` |
| `Rules` | rules.dfy | The vocabularies, the issues, and one function per rule. The two counting loops are also methods, proved equal to those functions |
| `Scorer` | scorer.dfy | `evaluate_resume`: the rule loop, capped accumulation, score, status and category scores |
| `Recommendations` | recommendations.dfy | `build_recommendations` |
| `Optional` | option.dfy | `None` or an issue, as the rules return it |

How the code is modelled:

- **Where the source changes state step by step, the model is a method with a loop.**
  - `detect_sections`, `evaluate_resume` (both its loops), `build_recommendations`,
    and the weak-bullet counters of `rule_action_verbs` and `rule_bullet_quality`
    are all such methods.
  - Each loop is proved against a specification function.
  - The properties the source promises are then proved as lemmas about that
    function.
- **Pure code is modelled as functions.** Each rule's contract states exactly
  when it fires. Ratio thresholds are restated as whole-number comparisons:
  `weak / n > 0.6` becomes `5 * weak > 3 * n`.
- **The section detector's specification reads the lines as a sequence of
  `LineKind`s:** each line is either `Heading(label)` or `Body(line)`.
  `Classify` ties each kind to `is_heading` and `normalize_section_name`.

One result goes beyond the obvious reading of `normalize_section_name`. The
label is `"unknown"` not only for a heading without letters but also for a
heading whose cleaned text is literally `unknown`. `NormalizeUnknownIff`
states both cases.

## Model

| member | source | states |
|---|---|---|
| Resume.WellFormedHasNoBlankBullets | backend/ats_core/pdf_extractor.py:38-47 | Stripped, non-empty lines that start with a bullet glyph are never blank, so every extracted bullet has a first word |
| Text.LowerChar | backend/ats_core/rules.py:41 | `str.lower` on one ASCII character: an upper-case letter becomes its lower-case partner, every other character is kept |
| Text.LowerKeepsUncased | backend/ats_core/rules.py:274-275 | Lower-casing neither adds nor removes a character without case, such as `@` |
| Text.ContainsIffOccurs | backend/ats_core/rules.py:42 | Substring `in` holds exactly when the text sits at some position |
| Text.AnyContainedIffOccurs | backend/ats_core/rules.py:84 | `any(k in s for k in vocab)` holds exactly when some entry sits at some position |
| Text.CountContainedIsCardinality | backend/ats_core/rules.py:42-44 | Over a vocabulary without repeats, the count of entries found is the size of the set found |
| Text.CountWordsSpaceJoin | backend/ats_core/rules.py:124-132 | Joining two texts with a space neither merges nor splits a word |
| Text.CountWordsOfJoin | backend/ats_core/rules.py:203 | `len(" ".join(xs).split())` is the sum of the lines' word counts |
| Text.SumWordsAppend | backend/ats_core/rules.py:124-127 | The word count of two concatenated lists of lines is the sum of their word counts |
| Text.FirstWord | backend/ats_core/rules.py:153-154 | `split()[0]` is empty exactly when the text is all whitespace |
| Text.FirstWordIsFirstRun | backend/ats_core/rules.py:153-154 | `split()[0]` is the first run of non-whitespace characters: it starts where the leading whitespace ends, holds no whitespace, and stops at the next whitespace character or at the end of the text |
| Text.FirstWordOpensText | backend/ats_core/rules.py:153-154 | A text that opens with a non-space character opens its first word with that character |
| Text.FirstSpaceField | backend/ats_core/rules.py:63 | `split(" ")[0]` is the prefix before the first plain space: it holds no space, and it stops at a space or at the end of the text |
| Text.StripChars | backend/ats_core/rules.py:63 | `strip(chars)` is the infix of the text left after cutting off a leading run and a trailing run of stripped characters. That infix neither starts nor ends with a stripped character, and a first character outside the set stays first |
| Text.LowerKeepsDigitRuns | backend/ats_core/rules.py:274-276 | `\d{n}` matches the lower-cased text exactly when it matches the text |
| OrderedMap.Keys | backend/ats_core/rules.py:100 | `keys()` lists each pair's key in insertion order |
| OrderedMap.IndexOf | backend/ats_core/rules.py:106 | `list.index` returns the first position holding the value |
| SectionDetector.DropTrailingColon | backend/ats_core/section_detector.py:20-21 | Exactly one trailing `:` is removed, and a line without one is unchanged |
| SectionDetector.IsHeading | backend/ats_core/section_detector.py:16-31 | A heading has at most 40 characters and contains a letter, since `isupper` and `istitle` both need a cased character. `str.isupper` and `str.istitle` are modelled over ASCII by the predicates `IsUpperText` and `IsTitleText` |
| SectionDetector.ColonIsUncased | backend/ats_core/section_detector.py:20-29 | Appending `:` changes neither the upper-case test nor the title-case test |
| SectionDetector.HeadingIgnoresTrailingColon | backend/ats_core/section_detector.py:16-31 | The verdict is the length test on the line as given, plus upper case or title case of the whole line: dropping the colon never matters |
| SectionDetector.KeepLettersAndSpaces | backend/ats_core/section_detector.py:35 | `re.sub(r"[^a-zA-Z ]", "", s)` leaves only letters and spaces, and every letter or space of the line still occurs |
| SectionDetector.KeepAppend | backend/ats_core/section_detector.py:35 | The filter works piecewise: filtering a concatenation concatenates the filtered parts, so each character is kept or dropped by itself |
| SectionDetector.KeepIsSubsequence | backend/ats_core/section_detector.py:35 | The kept characters appear in the line's order, each from its own position |
| SectionDetector.Clean | backend/ats_core/section_detector.py:35 | The cleaned text holds only lower-case letters and spaces, with no space at either end |
| SectionDetector.CleanKeepsLetters | backend/ats_core/section_detector.py:35 | The cleaned text has a letter exactly when the line has one |
| SectionDetector.KeptComesFromLine | backend/ats_core/section_detector.py:35 | Cleaning introduces no character that was not in the line |
| SectionDetector.CleanOpensWithLetter | backend/ats_core/section_detector.py:35 | A non-empty cleaned text opens with a letter |
| SectionDetector.FirstContainedIndex | backend/ats_core/section_detector.py:37-39 | The loop's stopping point: no earlier entry occurs in the text, and the entry found (if any) does |
| SectionDetector.FixedLabelsAreLabelText | backend/ats_core/section_detector.py:3-13 | Every vocabulary entry and `"unknown"` is a non-empty label of lower-case letters with no outer space |
| SectionDetector.UnknownIsNoCommonSection | backend/ats_core/section_detector.py:3-13 | `"unknown"` is not a vocabulary entry |
| SectionDetector.UnknownHoldsNoVocabularyEntry | backend/ats_core/section_detector.py:37-41 | No vocabulary entry occurs inside `"unknown"` |
| SectionDetector.NormalizeSectionName | backend/ats_core/section_detector.py:34-41 | The label is never empty; it holds only lower-case letters and inner spaces |
| SectionDetector.NormalizePicksEarliestVocabularyEntry | backend/ats_core/section_detector.py:37-39 | When entry k occurs and no earlier entry does, the label is entry k, wherever in the text the entries sit |
| SectionDetector.NormalizeOutsideVocabulary | backend/ats_core/section_detector.py:41 | With no vocabulary entry present, the label is the cleaned text, or `"unknown"` when that is empty |
| SectionDetector.NormalizeUnknownIff | backend/ats_core/section_detector.py:34-41 | The label is `"unknown"` exactly when the line has no ASCII letter or its cleaned text is `unknown` |
| SectionDetector.KindsStep | backend/ats_core/section_detector.py:49-56 | Reading line i appends its classification |
| SectionDetector.KindAt | backend/ats_core/section_detector.py:50-51 | The kind of line i is its classification: a heading with its normalised label, or a body line |
| SectionDetector.DetectSections | backend/ats_core/section_detector.py:44-58 | The keys are `Labels` of the classified lines and each key's lines are its `Bucket`. `"unknown"` comes first, and the lists hold exactly as many lines as there are non-heading lines: every body line is filed once |
| SectionDetector.OpenSection | backend/ats_core/section_detector.py:50-54 | A heading makes its label current. It adds the label as a key only if new, and leaves every bucket's lines as they were |
| SectionDetector.FileUnder | backend/ats_core/section_detector.py:55-56 | A body line is appended to the current label's bucket. The keys and the current label stay |
| SectionDetector.ReadNext | backend/ats_core/section_detector.py:49-56 | One more line changes the keys, the label in force and each bucket exactly as the loop body does |
| SectionDetector.LabelsStartWithUnknown | backend/ats_core/section_detector.py:45-47 | The keys are never empty, and the first is `"unknown"` |
| SectionDetector.LabelsDistinct | backend/ats_core/section_detector.py:52-54 | No key appears twice: a label that comes back reuses its bucket |
| SectionDetector.LabelsAreHeadingLabels | backend/ats_core/section_detector.py:45-54 | A label is a key exactly when it is `"unknown"` or the label of some heading |
| SectionDetector.KeyComesFromHeading | backend/ats_core/section_detector.py:50-54 | Every key other than `"unknown"` is the label of some heading |
| SectionDetector.HeadingLabelIsKey | backend/ats_core/section_detector.py:50-54 | The label of every heading is a key |
| SectionDetector.LabelsAreHeadingNames | backend/ats_core/section_detector.py:45-54 | On the lines themselves: a key is `"unknown"` or `normalize_section_name` of some line that `is_heading` accepts, and each such label is a key |
| SectionDetector.LabelsOfPrefix | backend/ats_core/section_detector.py:52-54 | Keys are only ever added at the end, so earlier keys keep their positions |
| SectionDetector.ActiveLabelIsKey | backend/ats_core/section_detector.py:46-56 | The label in force is always a key, so the append never misses |
| SectionDetector.BucketOutsideLabels | backend/ats_core/section_detector.py:52-56 | A label that is not a key has collected no lines |
| SectionDetector.BucketHoldsBodyLines | backend/ats_core/section_detector.py:49-56 | No bucket holds a heading line, and each bucket is an order-preserving subsequence of the input |
| SectionDetector.BucketNeverCleared | backend/ats_core/section_detector.py:52-56 | Reading more lines only appends to a bucket, so a revisited label keeps its earlier lines |
| SectionDetector.BucketTotalStep | backend/ats_core/section_detector.py:55-56 | One more line adds one line to exactly one of a set of distinct labels, or to none |
| SectionDetector.BucketsPartitionBody | backend/ats_core/section_detector.py:49-56 | The buckets of the keys together hold as many lines as there are body lines |
| SectionDetector.TotalLengthIsBucketTotal | backend/ats_core/section_detector.py:44-58 | The total of the result's lists is the total of its keys' buckets |
| SectionDetector.CountBodyIsNonHeadings | backend/ats_core/section_detector.py:49-56 | The body lines are exactly the lines `is_heading` rejects |
| Rules.RatioCompare | backend/ats_core/rules.py:67 | For positive denominators, comparing two ratios is comparing cross products |
| Rules.AboveThreeFifths | backend/ats_core/rules.py:67 | `w / n > 0.6` exactly when `5w > 3n` |
| Rules.AboveTwoFifths | backend/ats_core/rules.py:161 | `w / n > 0.4` exactly when `5w > 2n` |
| Rules.BelowOneQuarter | backend/ats_core/rules.py:134 | `w / n < 0.25` exactly when `4w < n` |
| Rules.SoftSkillsDistinct | backend/ats_core/rules.py:11-14 | The six soft-skill terms are all different, as the set requires |
| Rules.ExpectedOrderDistinct | backend/ats_core/rules.py:16-22 | The canonical order lists each section once |
| Rules.RuleSoftSkills | backend/ats_core/rules.py:40-54 | Reports the soft-skills issue exactly when fewer than 3 of the 6 terms occur in the lower-cased text, and nothing else |
| Rules.RuleActionVerbs | backend/ats_core/rules.py:57-77 | Reports exactly when there are bullets and 5 × weak > 3 × bullets (`weak / n > 0.6`). A bullet is weak when its first space-separated token, after stripping `•`, `-` and space and lower-casing, is not an action verb |
| Rules.RunActionVerbs | backend/ats_core/rules.py:57-77 | The counting loop reports the same as the rule function |
| Rules.ActionVerbsStartWithLetters | backend/ats_core/rules.py:6-9 | Every action verb opens with a lower-case letter |
| Rules.NonLetterOpensNoVerb | backend/ats_core/rules.py:63-64 | A token that opens with anything but a lower-case letter is not an action verb |
| Rules.UnstrippedGlyphLacksVerb | backend/ats_core/rules.py:63-64 | A bullet opening with `–`, `—`, `●` or `▪` is always weak: only `•`, `-` and space are stripped |
| Rules.RuleTailoredTitle | backend/ats_core/rules.py:80-94 | Reports exactly when none of engineer, analyst, developer or scientist sits anywhere in the lower-cased header |
| Rules.CanonicalPresent | backend/ats_core/rules.py:100 | The filtered keys are exactly the keys in the canonical order, kept in the keys' order |
| Rules.CanonicalPresentDistinct | backend/ats_core/rules.py:100 | Filtering distinct keys gives distinct entries |
| Rules.DisorderIsDisplacement | backend/ats_core/rules.py:105-108 | Over distinct entries, `actual.index(s)` is s's own position, so disorder is the total displacement from the canonical positions |
| Rules.RuleSectionOrder | backend/ats_core/rules.py:99-120 | Reports exactly when at least 3 canonical sections are present and their displacement sum is at least 6 |
| Rules.CanonicalOrderIsNotReported | backend/ats_core/rules.py:99-120 | Sections forming a prefix of the canonical order are never reported |
| Rules.PrefixInPlace | backend/ats_core/rules.py:106 | In a list without repeats, each entry of a prefix is first found at its own position |
| Rules.DisplacementZero | backend/ats_core/rules.py:105-108 | Entries at their canonical positions contribute no disorder |
| Rules.SwappedSummaryIsNotReported | backend/ats_core/rules.py:99-120 | Canonical sections present as skills, summary, experience: disorder 2, not reported |
| Rules.InOrderSubsetIsReported | backend/ats_core/rules.py:99-120 | Canonical sections present as experience, projects, education: canonical relative order, yet disorder 6, so reported |
| Rules.JoinEmptyIff | backend/ats_core/rules.py:124-130 | The joined text is empty exactly for no lines or a single empty line |
| Rules.RuleExperienceDensity | backend/ats_core/rules.py:123-144 | Reports exactly when the joined experience and projects text is non-empty and 4 × (experience words + project words) < max(word_count, 1). The denominator is never zero |
| Rules.RuleBulletQuality | backend/ats_core/rules.py:147-171 | Reports exactly when there are bullets and 5 × weak > 2 × bullets. A bullet is weak when fewer than 2 of its verb, object and impact signals hold |
| Rules.RunBulletQuality | backend/ats_core/rules.py:147-171 | The counting loop reports the same as the rule function |
| Rules.ExtractedBulletHasNoVerb | backend/ats_core/rules.py:153-158 | An extracted bullet's first word keeps its glyph and is never a verb, so it is strong only with both an object and an impact term |
| Rules.SomeDatedLine | backend/ats_core/rules.py:179-181 | At least one dated line is counted exactly when some line is dated |
| Rules.TwoDatedLines | backend/ats_core/rules.py:179-181 | At least two are counted exactly when two different lines are dated |
| Rules.RuleTimelineConsistency | backend/ats_core/rules.py:174-191 | Reports exactly when the experience section has lines and no two of them carry a month abbreviation or four digits |
| Rules.DateLineDigits | backend/ats_core/rules.py:35 | Lower-casing the line does not change whether it carries four digits in a row |
| Rules.RuleAtsFailureModes | backend/ats_core/rules.py:194-216 | Reports exactly when the header has over 10 words, there are over 12 sections, or the experience has under 150 words. The fix lists the risks |
| Rules.RisksNamed | backend/ats_core/rules.py:195-204 | Each risk is named exactly when its condition holds, always in the order header, sections, experience |
| Rules.HeaderNoiseImpliesAtsFailure | backend/ats_core/rules.py:259-270 | Whenever the header-noise rule reports, the ATS-failure rule reports too |
| Rules.MissingExperienceImpliesAtsFailure | backend/ats_core/rules.py:203-204 | With no experience lines, the ATS-failure rule always reports |
| Rules.MissingRequired | backend/ats_core/rules.py:222-223 | The missing list holds exactly the required sections that are not keys, each once |
| Rules.RuleMissingSections | backend/ats_core/rules.py:221-235 | Reports exactly when education, skills and experience are not all keys. The message lists the missing ones |
| Rules.CountNonStandardIsCardinality | backend/ats_core/rules.py:244-246 | Over distinct keys, the count is the number of different non-standard labels |
| Rules.RuleFragmentedStructure | backend/ats_core/rules.py:238-256 | Reports exactly when at least 5 keys lie outside the seven standard labels |
| Rules.DetectedSectionsHaveNonStandardLabel | backend/ats_core/rules.py:239-244 | The ever-present `"unknown"` counts as a non-standard label |
| Rules.RuleHeaderNoise | backend/ats_core/rules.py:259-270 | Reports exactly when the header has more than 10 words |
| Rules.RuleContactInfo | backend/ats_core/rules.py:273-288 | Reports exactly when the text lacks an `@` or a run of ten digits |
| Rules.ApplyRule | backend/ats_core/scorer.py:20-38 | Any issue a rule reports carries that rule's id, category, priority and penalty |
| Rules.RunRule | backend/ats_core/scorer.py:48 | Calling a rule, the bullet rules by their loops, gives what the rule function gives |
| Scorer.Cap | backend/ats_core/scorer.py:6-11 | Every cap is positive, so the scaling never divides by zero |
| Scorer.CollectStep | backend/ats_core/scorer.py:48-52 | One more result appends its issue, if it is one, at the end |
| Scorer.CollectedAreReported | backend/ats_core/scorer.py:48-52 | Every kept issue is one of the results |
| Scorer.ReportedAreCollected | backend/ats_core/scorer.py:48-52 | Every non-empty result is kept |
| Scorer.IssuesComeFromRules | backend/ats_core/scorer.py:20-52 | Every issue was reported by one of the rules |
| Scorer.RulesReportIntoIssues | backend/ats_core/scorer.py:20-52 | Every issue a rule reports is among the issues |
| Scorer.CategoryPenalty | backend/ats_core/scorer.py:54-59 | A category's accumulated penalty never exceeds its cap |
| Scorer.CategoryPenaltyIsCappedSum | backend/ats_core/scorer.py:54-59 | Accumulating up to the cap equals min(cap, sum of the category's penalties) |
| Scorer.CapAbsorbs | backend/ats_core/scorer.py:57-59 | Once the cap is reached, later issues leave the penalty there |
| Scorer.PenaltySumOfCategories | backend/ats_core/scorer.py:61 | The total is the sum of the four capped penalties |
| Scorer.TotalPenalty | backend/ats_core/scorer.py:61 | The total penalty is at most 15 + 20 + 15 + 10 = 60 |
| Scorer.Score | backend/ats_core/scorer.py:61-62 | The score is 100 less the total and lies in [40, 100], so `max(…, 0)` never binds |
| Scorer.StatusOf | backend/ats_core/scorer.py:73-77 | ATS-Safe exactly when score ≥ 75, Borderline exactly when 55 ≤ score < 75, High Auto-Reject Risk exactly when score < 55 |
| Scorer.StatusMonotone | backend/ats_core/scorer.py:73-77 | A higher score never gets a less safe status |
| Scorer.OneCategoryStaysSafe | backend/ats_core/scorer.py:54-77 | Issues from one category alone cost at most 20 points and leave the resume ATS-Safe |
| Scorer.OtherCategoryUntouched | backend/ats_core/scorer.py:54-59 | Issues of one category leave every other category's penalty at 0 |
| Scorer.RoundHalfEven | backend/ats_core/scorer.py:70 | `round(n / d)`: the nearest integer, a tie going to the even neighbour |
| Scorer.NearestEvenExcludes | backend/ats_core/scorer.py:70 | At most one integer is the nearest with ties to even |
| Scorer.RoundHalfEvenUnique | backend/ats_core/scorer.py:70 | The rounding property determines the result uniquely |
| Scorer.RoundWithin | backend/ats_core/scorer.py:70 | Rounding a fraction of m whole units stays within 0 and m |
| Scorer.ScaledScore | backend/ats_core/scorer.py:68-71 | A category score is at most its maximum, equals it without penalty, and is 0 at the cap |
| Scorer.ScaledPenaltyRange | backend/ats_core/scorer.py:70 | The scaled penalty lies in [0, max], and is 0 at no penalty and max at the cap |
| Scorer.CategoryScores | backend/ats_core/scorer.py:64-71 | Exactly the four categories, in table order, each within its maximum |
| Scorer.ContentTiesRoundToEven | backend/ats_core/scorer.py:70 | Content penalty 15 scales to 22.5, rounds to 22 and leaves 8; penalty 7 scales to 10.5, rounds to 10 and leaves 20 |
| Scorer.ReportsAreTagged | backend/ats_core/scorer.py:47-55 | Each result carries its rule's category and penalty |
| Scorer.RawPenaltyAppend | backend/ats_core/scorer.py:54-59 | The raw sum over two lists is the sum of their raw sums |
| Scorer.RawPenaltyOfIssues | backend/ats_core/scorer.py:47-59 | The raw sum of the kept issues is the sum of the penalties of the rules that reported |
| Scorer.FiredPrefix | backend/ats_core/scorer.py:47-59 | Reading one more rule adds that rule's share |
| Scorer.FiredPenaltyElsewhere | backend/ats_core/scorer.py:47-59 | Rules of other categories contribute nothing |
| Scorer.AtsFiredPenalty | backend/ats_core/scorer.py:20-38 | Only the ATS-failure (10), header-noise (6) and contact (4) rules count towards ATS Essentials |
| Scorer.AtsPenaltyIsZeroFourOrTen | backend/ats_core/scorer.py:47-59 | The ATS Essentials penalty is always 0, 4 or 10, because header noise always comes with an ATS failure |
| Scorer.PenaltyStep | backend/ats_core/scorer.py:54-59 | One more issue moves only its own category, by one capped step |
| Scorer.Charge | backend/ats_core/scorer.py:54-59 | After charging an issue, each category's entry is the capped accumulation including that issue |
| Scorer.CollectIssues | backend/ats_core/scorer.py:45-59 | The loop keeps exactly the rules' issues in rule order and each category's capped penalty |
| Scorer.SumPenalties | backend/ats_core/scorer.py:61 | The sum of the accumulated penalties is the total penalty |
| Scorer.ScoreCategories | backend/ats_core/scorer.py:64-71 | The second loop yields the scaled category scores |
| Scorer.EvaluateResume | backend/ats_core/scorer.py:41-85 | The result holds the rules' issues, the score and its status, the category scores and the constant table of maxima |
| Recommendations.ReadIssue | backend/ats_core/recommendations.py:6-11 | One more issue adds its priority if new, and appends its entry to its own group only |
| Recommendations.Open | backend/ats_core/recommendations.py:7 | `grouped[p]` adds an empty group for a new priority and changes no group |
| Recommendations.FileEntry | backend/ats_core/recommendations.py:7-11 | `.append` puts the entry in its priority's group and keeps the keys |
| Recommendations.BuildRecommendations | backend/ats_core/recommendations.py:3-13 | The keys are the priorities in first-occurrence order, and each group holds the entries of the issues of its priority, in order |
| Recommendations.PriorityOrderDistinct | backend/ats_core/recommendations.py:4-7 | No priority is a key twice |
| Recommendations.PriorityOrderExact | backend/ats_core/recommendations.py:4-7 | A priority is a key exactly when some issue has it, so no issues means no keys |
| Recommendations.EntriesOutsideOrder | backend/ats_core/recommendations.py:6-11 | A priority has entries exactly when it is a key: no group is empty |
| Recommendations.GroupsPartitionIssues | backend/ats_core/recommendations.py:6-11 | The two groups together hold one entry per issue |
| Recommendations.AllEntries | backend/ats_core/recommendations.py:7-11 | Entry i is issue i's category, message and fix |
| Recommendations.GroupsKeepIssueOrder | backend/ats_core/recommendations.py:6-11 | Each group lists its entries in the order their issues came |

## Left out

- Extraction from PDF (`pdf_extractor.py`), the web endpoint (`app.py`) and the
  browser front end are not part of this model: they are I/O. The model takes
  the extracted `ResumeData` as its input.
- `Resume.WellFormed`: the extractor's guarantees that lines are stripped and
  non-empty and that bullets start with a glyph are stated as a predicate, not
  derived from the extractor.
- `word_count` (`\b\w+\b` over the raw text) is an input field, not computed.
- `footer_text` is kept in the record; no rule reads it.
- Case, whitespace and digits are ASCII only. `lower`, `isupper`, `istitle`,
  `strip`, `split()` and `\d` are restricted to ASCII; Unicode letters,
  whitespace and digits are not modelled.
- The regular expressions are written as predicates. `DATE_REGEX` is "contains
  a month abbreviation or four digits in a row", and `\d{10}` is a ten-digit
  run.
- Rules.RuleMissingSections: the message lists the missing sections in the order
  education, skills, experience. The source iterates over a Python set, whose
  order is unspecified.
- Rules.RuleBulletQuality: requires every bullet to have a word. On a blank
  bullet, `words and …` yields an empty list, and `sum` then raises a
  `TypeError`. Extracted bullets are never blank
  (`Resume.WellFormedHasNoBlankBullets`). Every caller of the rule
  (`Rules.ApplyRule`, `Scorer.EvaluateResume`, …) carries the same precondition.
- Scorer.RoundHalfEven: the category scaling is exact rational arithmetic
  rounded half to even, not floating point. Over every penalty from 0 to each
  cap, the two disagree only for an ATS Essentials penalty of 7 (floating
  point gives a scaled penalty of 31, exact gives 32, so a category score of
  14 against 13). That penalty never arises:
  `Scorer.AtsPenaltyIsZeroFourOrTen` proves the ATS Essentials penalty is
  always 0, 4 or 10.
- Scorer.SumPenalties: sums the four categories of the score table instead of
  the dictionary's values. Categories that took no penalty are 0 either way.
- Scorer.ScoreCategories: the source's `if CATEGORY_CAPS[cat] else 0` branch is
  left out, since every cap is positive (`Scorer.Cap`).
- Rules and recommendations return typed records instead of dictionaries. An
  issue keeps its rule's wording as a value, and its message, reason and fix
  are derived from it. A recommendation keeps the category and the wording,
  and derives its message and fix from that wording.
- `Priority` has two values, High and Medium, because the rules use only those.
- The grouper's `defaultdict` is modelled as an ordered map that gains a key
  at first access. The scorer's is a Dafny `map` (unordered) that gains a key
  only when a penalty is first added, and a missing key reads as 0. The source
  never reads the order of the scorer's dictionary, so the totals are the same.
