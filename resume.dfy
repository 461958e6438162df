/**
 * The record the extractor hands to the analysis pipeline (`ResumeData`), and
 * the shape extraction guarantees for it.
 */
module Resume {
  import opened Text
  import opened OrderedMap

  /** `Dict[str, List[str]]` from section label to body lines: keys are unique. */
  type SectionMap = s: seq<(string, seq<string>)> | Distinct(Keys(s)) witness []

  datatype ResumeData = ResumeData(
    rawText: string,
    lines: seq<string>,
    wordCount: nat,
    headerText: string,
    footerText: string,
    bullets: seq<string>,
    sections: SectionMap)

  /** `list(resume.sections.keys())` */
  function SectionKeys(r: ResumeData): seq<string>
  {
    Keys(r.sections)
  }

  /** `resume.sections.get(name, [])` */
  function SectionLines(r: ResumeData, name: string): seq<string>
  {
    Get(r.sections, name)
  }

  /** The characters a line must start with to be collected as a bullet. */
  const BulletGlyphs: set<char> := {'•', '-', '–', '—', '●', '▪'}

  /** A line as the extractor keeps it: non-empty and stripped of surrounding whitespace. */
  predicate Trimmed(s: string)
  {
    |s| > 0 && !IsSpace(s[0]) && !IsSpace(s[|s| - 1])
  }

  /** A bullet as the extractor collects it: a trimmed line that begins with a glyph. */
  predicate ExtractedBullet(b: string)
  {
    Trimmed(b) && b[0] in BulletGlyphs
  }

  /** What extraction guarantees about the record it builds. */
  predicate WellFormed(r: ResumeData)
  {
    && (forall i :: 0 <= i < |r.lines| ==> Trimmed(r.lines[i]))
    && (forall i :: 0 <= i < |r.bullets| ==> ExtractedBullet(r.bullets[i]))
  }

  /** A text with no non-whitespace character: its `split()` is empty. */
  predicate Blank(s: string)
  {
    forall i :: 0 <= i < |s| ==> IsSpace(s[i])
  }

  /** What the bullet-quality rule needs: every bullet has at least one word. */
  predicate NoBlankBullets(r: ResumeData)
  {
    forall i :: 0 <= i < |r.bullets| ==> !Blank(r.bullets[i])
  }

  /** Extracted bullets are never blank. */
  lemma WellFormedHasNoBlankBullets(r: ResumeData)
    requires WellFormed(r)
    ensures NoBlankBullets(r)
  {
    forall i | 0 <= i < |r.bullets|
      ensures !Blank(r.bullets[i])
    {
      assert ExtractedBullet(r.bullets[i]);
    }
  }
}
