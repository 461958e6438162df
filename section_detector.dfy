/**
 * Section detection: which lines are headings (a capitalisation heuristic),
 * how a heading is turned into a section label, and how body lines are filed
 * under the label of the heading in force.
 */
module SectionDetector {
  import opened Text
  import opened OrderedMap
  import opened Sequences
  import opened Resume

  const MaxHeadingLength: nat := 40

  /** The canonical labels, in the order in which they are tried. */
  const CommonSections: seq<string> :=
    ["education", "experience", "projects", "skills", "certifications",
     "summary", "objective", "internships", "achievements"]

  const UnknownLabel: string := "unknown"

  // ------------------------------------------------------------ is_heading

  /** `s.isupper()` on ASCII: some upper-case letter and no lower-case one. */
  predicate IsUpperText(s: string)
  {
    (exists i :: 0 <= i < |s| && IsUpperChar(s[i])) &&
    forall i :: 0 <= i < |s| ==> !IsLowerChar(s[i])
  }

  /** Position i is consistent with title case: capitals only after non-letters, small letters only after letters. */
  predicate TitleCasedAt(s: string, i: nat)
    requires i < |s|
  {
    (IsUpperChar(s[i]) ==> i == 0 || !IsLetter(s[i - 1])) &&
    (IsLowerChar(s[i]) ==> i > 0 && IsLetter(s[i - 1]))
  }

  /** `s.istitle()` on ASCII: some letter, and every letter cased as in title case. */
  predicate IsTitleText(s: string)
  {
    HasLetter(s) && forall i :: 0 <= i < |s| ==> TitleCasedAt(s, i)
  }

  /** One trailing ':' removed, as `line[:-1]` after `line.endswith(":")`. */
  function DropTrailingColon(line: string): (r: string)
    ensures |line| > 0 && line[|line| - 1] == ':' ==> line == r + [':']
    ensures !(|line| > 0 && line[|line| - 1] == ':') ==> r == line
  {
    if |line| > 0 && line[|line| - 1] == ':' then line[..|line| - 1] else line
  }

  /** `is_heading`: short, and upper case or title case once a trailing colon is dropped. */
  predicate IsHeading(line: string)
    ensures IsHeading(line) ==> |line| <= MaxHeadingLength && HasLetter(line)
  {
    if |line| > MaxHeadingLength then false
    else
      var text := DropTrailingColon(line);
      IsUpperText(text) || IsTitleText(text)
  }

  /** A colon neither adds nor removes a cased character, so dropping it changes neither test. */
  lemma ColonIsUncased(s: string)
    ensures IsUpperText(s + [':']) == IsUpperText(s)
    ensures IsTitleText(s + [':']) == IsTitleText(s)
  {
    var t := s + [':'];
    assert forall i :: 0 <= i < |s| ==> t[i] == s[i];
    if IsUpperText(t) {
      var i :| 0 <= i < |t| && IsUpperChar(t[i]);
      assert i < |s| && IsUpperChar(s[i]);
    }
    if HasLetter(t) {
      var i :| 0 <= i < |t| && IsLetter(t[i]);
      assert i < |s| && IsLetter(s[i]);
    }
    if HasLetter(s) {
      var i :| 0 <= i < |s| && IsLetter(s[i]);
      assert IsLetter(t[i]);
    }
    if IsTitleText(s) {
      forall i | 0 <= i < |t| ensures TitleCasedAt(t, i) {
        if i < |s| { assert TitleCasedAt(s, i); }
      }
    }
    if IsTitleText(t) {
      forall i | 0 <= i < |s| ensures TitleCasedAt(s, i) {
        assert TitleCasedAt(t, i);
      }
    }
  }

  /**
   * Removing the trailing colon never changes the verdict: only the length
   * test, made on the line as given, and the two case tests matter.
   */
  lemma HeadingIgnoresTrailingColon(line: string)
    ensures IsHeading(line) <==>
      |line| <= MaxHeadingLength && (IsUpperText(line) || IsTitleText(line))
  {
    if |line| > 0 && line[|line| - 1] == ':' {
      ColonIsUncased(DropTrailingColon(line));
    }
  }

  // ------------------------------------------------ normalize_section_name

  predicate KeptByClean(c: char) { IsLetter(c) || c == ' ' }

  /** `re.sub(r"[^a-zA-Z ]", "", s)` */
  function KeepLettersAndSpaces(s: string): (r: string)
    ensures forall i :: 0 <= i < |r| ==> KeptByClean(r[i])
    ensures forall c :: c in s && KeptByClean(c) ==> c in r
  {
    if |s| == 0 then ""
    else (if KeptByClean(s[0]) then [s[0]] else []) + KeepLettersAndSpaces(s[1..])
  }

  /** Filtering works piecewise: cleaning a concatenation concatenates the cleaned parts. */
  lemma {:induction false} KeepAppend(a: string, b: string)
    ensures KeepLettersAndSpaces(a + b) == KeepLettersAndSpaces(a) + KeepLettersAndSpaces(b)
  {
    if |a| > 0 {
      assert (a + b)[1..] == a[1..] + b;
      KeepAppend(a[1..], b);
    } else {
      assert a + b == b;
    }
  }

  /** The kept characters stay in the line's order, each taken from its own position. */
  lemma {:induction false} KeepIsSubsequence(s: string)
    ensures IsSubsequence(KeepLettersAndSpaces(s), s)
  {
    if |s| > 0 {
      var init, last := s[..|s| - 1], s[|s| - 1];
      assert s == init + [last];
      KeepAppend(init, [last]);
      assert KeepLettersAndSpaces([last]) == if KeptByClean(last) then [last] else [];
      KeepIsSubsequence(init);
      SubsequenceExtend(KeepLettersAndSpaces(init), init, last, KeptByClean(last));
    }
  }

  /** The text a heading is matched on: letters and spaces only, lower-cased, trimmed. */
  function Clean(line: string): (r: string)
    ensures forall i :: 0 <= i < |r| ==> IsLowerChar(r[i]) || r[i] == ' '
    ensures |r| > 0 ==> r[0] != ' ' && r[|r| - 1] != ' '
  {
    var lowered := Lower(KeepLettersAndSpaces(line));
    StripSpaces(lowered)
  }

  /** The position of the first entry of `vocab` that occurs in s, or |vocab| when none does. */
  function FirstContainedIndex(s: string, vocab: seq<string>): (k: nat)
    ensures k <= |vocab|
    ensures forall j :: 0 <= j < k ==> !Contains(s, vocab[j])
    ensures k < |vocab| ==> Contains(s, vocab[k])
  {
    if |vocab| == 0 then 0
    else if Contains(s, vocab[0]) then 0
    else 1 + FirstContainedIndex(s, vocab[1..])
  }

  /** Lower-case letters and spaces, non-empty, with no space at either end. */
  predicate IsLabelText(s: string)
  {
    |s| > 0 && s[0] != ' ' && s[|s| - 1] != ' ' &&
    forall i :: 0 <= i < |s| ==> IsLowerChar(s[i]) || s[i] == ' '
  }

  lemma FixedLabelsAreLabelText()
    ensures forall k :: 0 <= k < |CommonSections| ==> IsLabelText(CommonSections[k])
    ensures IsLabelText(UnknownLabel)
  {
    assert IsLabelText("education") && IsLabelText("experience") && IsLabelText("projects");
    assert IsLabelText("skills") && IsLabelText("certifications") && IsLabelText("summary");
    assert IsLabelText("objective") && IsLabelText("internships") && IsLabelText("achievements");
  }

  /** `normalize_section_name`: a non-empty label of lower-case letters and inner spaces. */
  function NormalizeSectionName(line: string): (name: string)
    ensures IsLabelText(name)
  {
    var clean := Clean(line);
    var k := FirstContainedIndex(clean, CommonSections);
    FixedLabelsAreLabelText();
    if k < |CommonSections| then CommonSections[k]
    else if clean != "" then clean
    else UnknownLabel
  }

  /** A vocabulary entry found in the heading wins when no earlier entry is found, wherever it sits in the text. */
  lemma NormalizePicksEarliestVocabularyEntry(line: string, k: nat)
    requires k < |CommonSections| && Contains(Clean(line), CommonSections[k])
    requires forall j :: 0 <= j < k ==> !Contains(Clean(line), CommonSections[j])
    ensures NormalizeSectionName(line) == CommonSections[k]
  {
    var f := FirstContainedIndex(Clean(line), CommonSections);
    assert !(f < k);
    assert !(k < f);
  }

  /** With no vocabulary entry in it, the cleaned heading itself is the label ("unknown" if nothing is left). */
  lemma NormalizeOutsideVocabulary(line: string)
    requires forall k :: 0 <= k < |CommonSections| ==> !Contains(Clean(line), CommonSections[k])
    ensures NormalizeSectionName(line) == if Clean(line) != "" then Clean(line) else UnknownLabel
  {
    var f := FirstContainedIndex(Clean(line), CommonSections);
    assert f == |CommonSections|;
  }

  /** A line keeps a letter through cleaning exactly when it has one. */
  lemma CleanKeepsLetters(line: string)
    ensures HasLetter(Clean(line)) <==> HasLetter(line)
  {
    var kept := KeepLettersAndSpaces(line);
    var lowered := Lower(kept);
    if HasLetter(line) {
      var i :| 0 <= i < |line| && IsLetter(line[i]);
      assert line[i] in line;
      assert line[i] in kept;
      var j :| 0 <= j < |kept| && kept[j] == line[i];
      assert IsLetter(lowered[j]) && lowered[j] != ' ';
      assert lowered[j] in lowered;
      assert lowered[j] in Clean(line);
    }
    if HasLetter(Clean(line)) {
      var i :| 0 <= i < |Clean(line)| && IsLetter(Clean(line)[i]);
      assert Clean(line)[i] in lowered;
      var j :| 0 <= j < |lowered| && lowered[j] == Clean(line)[i];
      assert IsLetter(kept[j]);
      assert kept[j] in kept;
      KeptComesFromLine(line, kept[j]);
    }
  }

  lemma {:induction false} KeptComesFromLine(s: string, c: char)
    requires c in KeepLettersAndSpaces(s)
    ensures c in s
  {
    if |s| > 0 {
      if c != s[0] || !KeptByClean(s[0]) {
        assert KeepLettersAndSpaces(s) == (if KeptByClean(s[0]) then [s[0]] else []) + KeepLettersAndSpaces(s[1..]);
        KeptComesFromLine(s[1..], c);
      }
    }
  }

  lemma UnknownHoldsNoVocabularyEntry()
    ensures forall k :: 0 <= k < |CommonSections| ==> !Contains(UnknownLabel, CommonSections[k])
  {
    assert "skills"[0] != "unknown"[1] && !Contains("known", "skills");
    assert "summary"[0] != "unknown"[0] && !Contains("nknown", "summary");
  }

  /**
   * The label is "unknown" exactly when the heading has no ASCII letter, or its
   * cleaned text is literally "unknown" (a heading reading "Unknown").
   */
  lemma NormalizeUnknownIff(line: string)
    ensures NormalizeSectionName(line) == UnknownLabel <==>
      !HasLetter(line) || Clean(line) == UnknownLabel
  {
    CleanKeepsLetters(line);
    var clean := Clean(line);
    var k := FirstContainedIndex(clean, CommonSections);
    if !HasLetter(line) {
      CleanOpensWithLetter(line);
      assert clean == "";
      FixedLabelsAreLabelText();
      assert k == |CommonSections|;
    } else if clean == UnknownLabel {
      UnknownHoldsNoVocabularyEntry();
      assert k == |CommonSections|;
    } else {
      UnknownIsNoCommonSection();
    }
  }

  /** A non-empty cleaned heading opens with a letter. */
  lemma CleanOpensWithLetter(line: string)
    ensures |Clean(line)| > 0 ==> IsLetter(Clean(line)[0])
  {
  }

  /** "unknown" is not one of the canonical labels (told apart by length, or from "summary" by its first letter). */
  lemma UnknownIsNoCommonSection()
    ensures forall k :: 0 <= k < |CommonSections| ==> CommonSections[k] != UnknownLabel
  {
    assert |UnknownLabel| == 7 && UnknownLabel[0] == 'u';
    assert |CommonSections[0]| == 9 && |CommonSections[1]| == 10 && |CommonSections[2]| == 8;
    assert |CommonSections[3]| == 6 && |CommonSections[4]| == 14 && CommonSections[5][0] == 's';
    assert |CommonSections[6]| == 9 && |CommonSections[7]| == 11 && |CommonSections[8]| == 12;
  }

  // --------------------------------------------------------- detect_sections

  /** What a line is to the detector: a heading with its label, or a body line. */
  datatype LineKind = Heading(section: string) | Body(line: string)

  /** `is_heading(line)`, and for a heading `normalize_section_name(line)`. */
  function Classify(line: string): LineKind
  {
    if IsHeading(line) then Heading(NormalizeSectionName(line)) else Body(line)
  }

  /** The lines as the detector sees them, one kind per line. */
  function Kinds(lines: seq<string>): (ks: seq<LineKind>)
    ensures |ks| == |lines|
  {
    if |lines| == 0 then [] else Kinds(lines[..|lines| - 1]) + [Classify(lines[|lines| - 1])]
  }

  lemma KindsStep(lines: seq<string>, i: nat)
    requires i < |lines|
    ensures Kinds(lines[..i + 1]) == Kinds(lines[..i]) + [Classify(lines[i])]
  {
    assert lines[..i + 1][..i] == lines[..i];
  }

  lemma {:induction false} KindAt(lines: seq<string>, i: nat)
    requires i < |lines|
    ensures Kinds(lines)[i] == Classify(lines[i])
  {
    var init := lines[..|lines| - 1];
    assert Kinds(lines) == Kinds(init) + [Classify(lines[|lines| - 1])];
    if i < |init| {
      KindAt(init, i);
      assert lines[i] == init[i];
    }
  }

  /** The label in force after reading `ks`: that of the last heading, else "unknown". */
  function ActiveLabel(ks: seq<LineKind>): string
  {
    if |ks| == 0 then UnknownLabel
    else if ks[|ks| - 1].Heading? then ks[|ks| - 1].section
    else ActiveLabel(ks[..|ks| - 1])
  }

  /** The section keys: "unknown", then each heading's label where it first appears. */
  function Labels(ks: seq<LineKind>): seq<string>
  {
    if |ks| == 0 then [UnknownLabel]
    else
      var before := Labels(ks[..|ks| - 1]);
      var last := ks[|ks| - 1];
      if last.Heading? && last.section !in before then before + [last.section] else before
  }

  /** The lines filed under `name`: the body lines read while `name` was in force, in order. */
  function Bucket(ks: seq<LineKind>, name: string): seq<string>
  {
    if |ks| == 0 then []
    else
      var init := ks[..|ks| - 1];
      var last := ks[|ks| - 1];
      Bucket(init, name) + (if last.Body? && ActiveLabel(init) == name then [last.line] else [])
  }

  /** The number of body lines. */
  function CountBody(ks: seq<LineKind>): nat
  {
    if |ks| == 0 then 0
    else CountBody(ks[..|ks| - 1]) + (if ks[|ks| - 1].Body? then 1 else 0)
  }

  /** `detect_sections`: file every body line under the label of the heading in force. */
  method DetectSections(lines: seq<string>) returns (sections: SectionMap)
    ensures Keys(sections) == Labels(Kinds(lines))
    ensures forall k :: 0 <= k < |sections| ==> sections[k].1 == Bucket(Kinds(lines), sections[k].0)
    ensures |sections| > 0 && sections[0].0 == UnknownLabel
    ensures TotalLength(sections) == CountNonHeadings(lines)
  {
    var m: seq<(string, seq<string>)> := [(UnknownLabel, [])];
    var current := UnknownLabel;
    ghost var ks: seq<LineKind> := [];
    var i := 0;
    while i < |lines|
      invariant 0 <= i <= |lines| && ks == Kinds(lines[..i])
      invariant Keys(m) == Labels(ks) && current == ActiveLabel(ks)
      invariant forall k :: 0 <= k < |m| ==> m[k].1 == Bucket(ks, m[k].0)
    {
      var line := lines[i];
      KindsStep(lines, i);
      if IsHeading(line) {
        current := NormalizeSectionName(line);
        m := OpenSection(m, ks, current);
        ks := ks + [Heading(current)];
      } else {
        m := FileUnder(m, ks, current, line);
        ks := ks + [Body(line)];
      }
      i := i + 1;
    }
    assert lines[..|lines|] == lines;
    LabelsStartWithUnknown(ks);
    LabelsDistinct(ks);
    TotalLengthIsBucketTotal(m, ks);
    BucketsPartitionBody(ks);
    CountBodyIsNonHeadings(lines);
    sections := m;
  }

  /** `if current_section not in sections: sections[current_section] = []` for a heading labelled `name`. */
  function OpenSection(m: seq<(string, seq<string>)>, ghost ks: seq<LineKind>, name: string)
    : (m': seq<(string, seq<string>)>)
    requires Keys(m) == Labels(ks)
    requires forall j :: 0 <= j < |m| ==> m[j].1 == Bucket(ks, m[j].0)
    ensures Keys(m') == Labels(ks + [Heading(name)]) && ActiveLabel(ks + [Heading(name)]) == name
    ensures forall j :: 0 <= j < |m'| ==> m'[j].1 == Bucket(ks + [Heading(name)], m'[j].0)
  {
    ReadNext(ks, Heading(name));
    if name in Keys(m) then m
    else
      BucketOutsideLabels(ks, name);
      m + [(name, [])]
  }

  /** `sections[current_section].append(line)` for a body line. */
  function FileUnder(m: seq<(string, seq<string>)>, ghost ks: seq<LineKind>, current: string, line: string)
    : (m': seq<(string, seq<string>)>)
    requires Keys(m) == Labels(ks) && current == ActiveLabel(ks)
    requires forall j :: 0 <= j < |m| ==> m[j].1 == Bucket(ks, m[j].0)
    ensures Keys(m') == Keys(m) == Labels(ks + [Body(line)]) && ActiveLabel(ks + [Body(line)]) == current
    ensures forall j :: 0 <= j < |m'| ==> m'[j].1 == Bucket(ks + [Body(line)], m'[j].0)
  {
    ActiveLabelIsKey(ks);
    LabelsDistinct(ks);
    ReadNext(ks, Body(line));
    var k := IndexOf(Keys(m), current);
    var m' := m[k := (m[k].0, m[k].1 + [line])];
    assert forall j :: 0 <= j < |m'| ==> m'[j].0 == m[j].0;
    m'
  }

  /** How reading one more line changes the keys, the label in force and every bucket. */
  lemma ReadNext(ks: seq<LineKind>, k: LineKind)
    ensures Labels(ks + [k]) ==
      if k.Heading? && k.section !in Labels(ks) then Labels(ks) + [k.section] else Labels(ks)
    ensures ActiveLabel(ks + [k]) == if k.Heading? then k.section else ActiveLabel(ks)
    ensures forall name {:trigger Bucket(ks + [k], name)} :: Bucket(ks + [k], name) ==
              Bucket(ks, name) + (if k.Body? && ActiveLabel(ks) == name then [k.line] else [])
  {
    assert (ks + [k])[..|ks|] == ks;
  }

  // ------------------------------------------------- properties of the spec

  lemma {:induction false} LabelsStartWithUnknown(ks: seq<LineKind>)
    ensures |Labels(ks)| > 0 && Labels(ks)[0] == UnknownLabel
  {
    if |ks| > 0 {
      LabelsStartWithUnknown(ks[..|ks| - 1]);
    }
  }

  /** Keys are never repeated: a label that comes back reuses its bucket. */
  lemma {:induction false} LabelsDistinct(ks: seq<LineKind>)
    ensures Distinct(Labels(ks))
  {
    if |ks| > 0 {
      LabelsDistinct(ks[..|ks| - 1]);
    }
  }

  /** The keys are "unknown" and the labels of the headings, and nothing else. */
  lemma LabelsAreHeadingLabels(ks: seq<LineKind>, name: string)
    ensures name in Labels(ks) <==>
      name == UnknownLabel || exists i :: 0 <= i < |ks| && ks[i] == Heading(name)
  {
    LabelsStartWithUnknown(ks);
    if name in Labels(ks) && name != UnknownLabel {
      KeyComesFromHeading(ks, name);
    }
    if exists i :: 0 <= i < |ks| && ks[i] == Heading(name) {
      var i :| 0 <= i < |ks| && ks[i] == Heading(name);
      HeadingLabelIsKey(ks, i);
    }
  }

  /** Every key other than "unknown" is the label of some heading. */
  lemma {:induction false} KeyComesFromHeading(ks: seq<LineKind>, name: string)
    requires name in Labels(ks) && name != UnknownLabel
    ensures exists i :: 0 <= i < |ks| && ks[i] == Heading(name)
  {
    var init := ks[..|ks| - 1];
    if name in Labels(init) {
      KeyComesFromHeading(init, name);
      var i :| 0 <= i < |init| && init[i] == Heading(name);
      assert ks[i] == init[i];
    } else {
      assert ks[|ks| - 1] == Heading(name);
    }
  }

  /** The label of every heading is a key. */
  lemma HeadingLabelIsKey(ks: seq<LineKind>, i: nat)
    requires i < |ks| && ks[i].Heading?
    ensures ks[i].section in Labels(ks)
  {
    var upTo := ks[..i + 1];
    assert upTo[..i] == ks[..i];
    var before := Labels(upTo);
    var k :| 0 <= k < |before| && before[k] == ks[i].section;
    LabelsOfPrefix(ks, i + 1);
    assert Labels(ks)[k] == ks[i].section;
  }

  /** On the lines themselves: the keys are "unknown" and the labels of the heading lines. */
  lemma LabelsAreHeadingNames(lines: seq<string>, name: string)
    ensures name in Labels(Kinds(lines)) <==>
      name == UnknownLabel ||
      exists i :: 0 <= i < |lines| && IsHeading(lines[i]) && NormalizeSectionName(lines[i]) == name
  {
    var ks := Kinds(lines);
    LabelsAreHeadingLabels(ks, name);
    if exists i :: 0 <= i < |ks| && ks[i] == Heading(name) {
      var i :| 0 <= i < |ks| && ks[i] == Heading(name);
      KindAt(lines, i);
      assert IsHeading(lines[i]) && NormalizeSectionName(lines[i]) == name;
    }
    if exists i :: 0 <= i < |lines| && IsHeading(lines[i]) && NormalizeSectionName(lines[i]) == name {
      var i :| 0 <= i < |lines| && IsHeading(lines[i]) && NormalizeSectionName(lines[i]) == name;
      KindAt(lines, i);
      assert ks[i] == Heading(name);
    }
  }

  /** Once a label is a key it stays one, at the same position. */
  lemma {:induction false} LabelsOfPrefix(ks: seq<LineKind>, j: nat)
    requires j <= |ks|
    ensures Labels(ks[..j]) <= Labels(ks)
  {
    if j == |ks| {
      assert ks[..j] == ks;
    } else {
      var init := ks[..|ks| - 1];
      LabelsOfPrefix(init, j);
      assert init[..j] == ks[..j];
    }
  }

  /** The label in force is always a key. */
  lemma {:induction false} ActiveLabelIsKey(ks: seq<LineKind>)
    ensures ActiveLabel(ks) in Labels(ks)
  {
    if |ks| > 0 {
      var init := ks[..|ks| - 1];
      ActiveLabelIsKey(init);
      LabelsStartWithUnknown(init);
    }
  }

  /** A label that is not yet a key has collected nothing. */
  lemma {:induction false} BucketOutsideLabels(ks: seq<LineKind>, name: string)
    requires name !in Labels(ks)
    ensures Bucket(ks, name) == []
  {
    if |ks| > 0 {
      var init := ks[..|ks| - 1];
      assert Labels(init) <= Labels(ks);
      ActiveLabelIsKey(init);
      BucketOutsideLabels(init, name);
    }
  }

  /** Heading lines are never filed: every bucket holds body lines only, in document order. */
  lemma {:induction false} BucketHoldsBodyLines(lines: seq<string>, name: string)
    ensures forall j :: 0 <= j < |Bucket(Kinds(lines), name)| ==> !IsHeading(Bucket(Kinds(lines), name)[j])
    ensures IsSubsequence(Bucket(Kinds(lines), name), lines)
  {
    if |lines| > 0 {
      var init, last := lines[..|lines| - 1], lines[|lines| - 1];
      BucketHoldsBodyLines(init, name);
      var ks := Kinds(lines);
      assert ks == Kinds(init) + [Classify(last)];
      ReadNext(Kinds(init), Classify(last));
      var b := Bucket(ks, name);
      if !IsHeading(last) && ActiveLabel(Kinds(init)) == name {
        assert b == Bucket(Kinds(init), name) + [last];
        assert b[..|b| - 1] == Bucket(Kinds(init), name);
      } else {
        assert b == Bucket(Kinds(init), name);
      }
    }
  }

  /** Reading more lines only appends to a bucket: a revisited label never loses its earlier lines. */
  lemma {:induction false} BucketNeverCleared(ks: seq<LineKind>, more: seq<LineKind>, name: string)
    ensures Bucket(ks, name) <= Bucket(ks + more, name)
    decreases |more|
  {
    if |more| > 0 {
      var init := more[..|more| - 1];
      BucketNeverCleared(ks, init, name);
      assert (ks + more)[..|ks + more| - 1] == ks + init;
    } else {
      assert ks + more == ks;
    }
  }

  /** The total size of the buckets of `names`. */
  function BucketTotal(ks: seq<LineKind>, names: seq<string>): nat
  {
    if |names| == 0 then 0
    else BucketTotal(ks, names[..|names| - 1]) + |Bucket(ks, names[|names| - 1])|
  }

  /** Reading one more line adds it to exactly one of a set of distinct labels, or to none. */
  lemma {:induction false} BucketTotalStep(ks: seq<LineKind>, k: LineKind, names: seq<string>)
    requires Distinct(names)
    ensures BucketTotal(ks + [k], names) ==
      BucketTotal(ks, names) + (if k.Body? && ActiveLabel(ks) in names then 1 else 0)
  {
    ReadNext(ks, k);
    if |names| > 0 {
      var init := names[..|names| - 1];
      assert Distinct(init);
      BucketTotalStep(ks, k, init);
      assert names == init + [names[|names| - 1]];
    }
  }

  /** Every body line lands in exactly one bucket: the bucket sizes add up to the body lines. */
  lemma {:induction false} BucketsPartitionBody(ks: seq<LineKind>)
    ensures BucketTotal(ks, Labels(ks)) == CountBody(ks)
  {
    if |ks| > 0 {
      var init := ks[..|ks| - 1];
      var last := ks[|ks| - 1];
      assert ks == init + [last];
      BucketsPartitionBody(init);
      LabelsDistinct(init);
      ActiveLabelIsKey(init);
      BucketTotalStep(init, last, Labels(init));
      if last.Heading? && last.section !in Labels(init) {
        BucketOutsideLabels(init, last.section);
        assert Labels(ks)[..|Labels(ks)| - 1] == Labels(init);
      }
    }
  }

  /** The result's bucket sizes add up to the buckets of its keys. */
  lemma {:induction false} TotalLengthIsBucketTotal(sections: seq<(string, seq<string>)>, ks: seq<LineKind>)
    requires forall k :: 0 <= k < |sections| ==> sections[k].1 == Bucket(ks, sections[k].0)
    ensures TotalLength(sections) == BucketTotal(ks, Keys(sections))
  {
    if |sections| > 0 {
      var init := sections[..|sections| - 1];
      TotalLengthIsBucketTotal(init, ks);
      assert Keys(sections)[..|sections| - 1] == Keys(init);
    }
  }

  /** The number of lines that are not headings. */
  function CountNonHeadings(lines: seq<string>): nat
  {
    if |lines| == 0 then 0
    else CountNonHeadings(lines[..|lines| - 1]) + (if IsHeading(lines[|lines| - 1]) then 0 else 1)
  }

  lemma {:induction false} CountBodyIsNonHeadings(lines: seq<string>)
    ensures CountBody(Kinds(lines)) == CountNonHeadings(lines)
  {
    if |lines| > 0 {
      var init := lines[..|lines| - 1];
      CountBodyIsNonHeadings(init);
      assert Kinds(lines)[..|lines| - 1] == Kinds(init);
    }
  }


}
