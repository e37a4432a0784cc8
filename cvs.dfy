/** The résumé entities and the document CurriculumVitae builds from them
    (Scripts/CVs.py). The python-docx document is modelled as two sequences
    of paragraph records, the first-page header and the body, that the
    class appends to step by step. Lengths are integer EMU (914400 per
    inch) and font sizes whole points. */
module CVs {
  import opened PyBuiltins
  import opened Seqs

  // ---------------------------------------------------------------------
  // Entities. InformationEntry's four fields (title, description, start
  // and end date) appear in each record.

  datatype Experience = Experience(
    title: string, description: string, companyName: string, location: string,
    startDate: string, endDate: string)

  datatype Education = Education(
    title: string, location: string, degree: string, extracurriculars: seq<string>,
    description: string, startDate: string, endDate: string)

  datatype Project = Project(title: string, description: string, startDate: string, endDate: string)

  /** Education's constructor: the extracurriculars string is split on every
      comma, untrimmed; the list therefore has one item per comma plus one
      (never empty, [""] for ""), and joining it back with "," gives the
      string. The other arguments are stored as they are. */
  function NewEducation(
    institution: string, location: string, degree: string, extracurriculars: string,
    description: string, startDate: string, endDate: string): (e: Education)
    ensures e == Education(institution, location, degree, e.extracurriculars,
                           description, startDate, endDate)
    ensures |e.extracurriculars| == multiset(extracurriculars)[','] + 1
    ensures Join(e.extracurriculars, ",") == extracurriculars
    ensures forall item :: item in e.extracurriculars ==> ',' !in item
  {
    SplitCount(extracurriculars, ',');
    SplitJoin(extracurriculars, ',');
    SplitPiecesFree(extracurriculars, ',');
    Education(institution, location, degree, Split(extracurriculars, ','),
              description, startDate, endDate)
  }

  // ---------------------------------------------------------------------
  // Paragraph records

  datatype Style = Normal | ListBullet2

  /** A run of text; a size of None inherits the style's 10pt. */
  datatype Run = Run(text: string, bold: bool, italic: bool, sizePt: Option<nat>)

  datatype Paragraph = Paragraph(
    runs: seq<Run>, style: Style, centered: bool,
    rightTab: Option<int>, spaceAfterPt: Option<nat>)

  /** python-docx lengths are in English Metric Units. */
  const EmuPerInch: int := 914400
  /** Inches(0.75), the margin on all four sides. */
  const Margin: int := EmuPerInch * 3 / 4
  const ContactLine: string := "[EMAIL] | [LINKEDIN] | [PHONE #]"
  const Bullet: char := '\U{2022}'
  /** The en dash between the two dates of a header line. */
  const DateSeparator: string := " \U{2013} "
  const BulletSpaceAfterPt: nat := 2

  function RunsText(runs: seq<Run>): string
  {
    if runs == [] then "" else runs[0].text + RunsText(runs[1..])
  }

  /** The text a paragraph displays. */
  function Text(p: Paragraph): string
  {
    RunsText(p.runs)
  }

  /** document.add_paragraph(text, style): python-docx adds a run only for
      non-empty text. */
  function NewParagraph(text: string, style: Style): (p: Paragraph)
    ensures Text(p) == text && p.style == style
    ensures p.runs == [] <==> text == ""
    ensures p.rightTab == None && p.spaceAfterPt == None && !p.centered
  {
    var runs := if text == "" then [] else [Run(text, false, false, None)];
    assert RunsText(runs) == text by {
      if text != "" {
        assert runs[1..] == [];
      }
    }
    Paragraph(runs, style, false, None, None)
  }

  /** The paragraph __add_space__ adds. */
  function Blank(): Paragraph
  {
    NewParagraph("", Normal)
  }

  /** __add_section_heading__: the heading's only run is bold 12pt. */
  function SectionHeading(text: string): Paragraph
  {
    Paragraph([Run(text, true, false, Some(12))], Normal, false, None, None)
  }

  /** The first-page header: the name centered in bold 28pt, then the
      centered contact placeholder. */
  function FirstPageHeader(name: string): seq<Paragraph>
  {
    [Paragraph([Run(name, true, false, Some(28))], Normal, true, None, None),
     Paragraph([Run(ContactLine, false, false, None)], Normal, true, None, None)]
  }

  /** The date text of an experience or a project: a blank end date (compared
      before stripping) reads "Present". */
  function OpenDateRange(startDate: string, endDate: string): string
  {
    Strip(startDate) + DateSeparator + (if endDate == "" then "Present" else Strip(endDate))
  }

  /** The date text of an education: "Present" is never substituted. */
  function ClosedDateRange(startDate: string, endDate: string): string
  {
    Strip(startDate) + DateSeparator + Strip(endDate)
  }

  /** The italic run that follows the right tab stop on a header line. */
  function DateRun(dates: string): Run
  {
    Run("\t" + dates, false, true, None)
  }

  function ExperienceHeaderLine(e: Experience, tab: int): Paragraph
  {
    Paragraph([Run(Strip(e.title), true, false, None),
               Run(" - " + Strip(e.companyName) + ", " + Strip(e.location), false, true, None),
               DateRun(OpenDateRange(e.startDate, e.endDate))],
              Normal, false, Some(tab), None)
  }

  function EducationHeaderLine(e: Education, tab: int): Paragraph
  {
    Paragraph([Run(Strip(e.title), true, false, None),
               Run(" - " + Strip(e.location), false, true, None),
               DateRun(ClosedDateRange(e.startDate, e.endDate))],
              Normal, false, Some(tab), None)
  }

  function ProjectHeaderLine(p: Project, tab: int): Paragraph
  {
    Paragraph([Run(Strip(p.title), true, false, None),
               DateRun(OpenDateRange(p.startDate, p.endDate))],
              Normal, false, Some(tab), None)
  }

  /** The pieces of a split that are not exactly "", in order. */
  function NonEmpty(pieces: seq<string>): seq<string>
  {
    if pieces == [] then []
    else (if pieces[0] == "" then [] else [pieces[0]]) + NonEmpty(pieces[1..])
  }

  /** The bullet texts of a description: its fragments between bullet
      characters, without the empty ones. Whitespace-only fragments stay,
      because the loop discards the result of strip(). */
  function BulletTexts(description: string): seq<string>
  {
    NonEmpty(Split(description, Bullet))
  }

  function BulletParagraphs(texts: seq<string>): seq<Paragraph>
  {
    if texts == [] then []
    else [NewParagraph(texts[0], ListBullet2)] + BulletParagraphs(texts[1..])
  }

  /** Gives the last paragraph 2pt of space after it. */
  function SpaceAfterLast(ps: seq<Paragraph>): seq<Paragraph>
  {
    if ps == [] then []
    else ps[..|ps| - 1] + [ps[|ps| - 1].(spaceAfterPt := Some(BulletSpaceAfterPt))]
  }

  /** The bullet list of a description, as an experience or a project shows it. */
  function DescriptionBullets(description: string): seq<Paragraph>
  {
    SpaceAfterLast(BulletParagraphs(BulletTexts(description)))
  }

  function ExtracurricularsHeading(): Paragraph
  {
    Paragraph([Run("Extracurriculars", false, true, None)], Normal, false, None, None)
  }

  /** One bullet per extracurricular, each stripped. */
  function ExtracurricularBullets(items: seq<string>): seq<Paragraph>
  {
    Map(items, ExtracurricularBullet)
  }

  function ExtracurricularBullet(item: string): Paragraph
  {
    NewParagraph(Strip(item), ListBullet2)
  }

  function ExperienceBlock(e: Experience, tab: int): seq<Paragraph>
  {
    [ExperienceHeaderLine(e, tab)] + DescriptionBullets(e.description)
  }

  /** The "Extracurriculars" line and its bullets, shown only for a
      non-empty list. */
  function ExtracurricularsPart(items: seq<string>): seq<Paragraph>
  {
    if |items| > 0 then [ExtracurricularsHeading()] + ExtracurricularBullets(items) else []
  }

  function EducationBlock(e: Education, tab: int): seq<Paragraph>
  {
    [EducationHeaderLine(e, tab)] + [NewParagraph(Strip(e.degree), Normal)]
    + ExtracurricularsPart(e.extracurriculars)
  }

  function ProjectBlock(p: Project, tab: int): seq<Paragraph>
  {
    [ProjectHeaderLine(p, tab)] + DescriptionBullets(p.description)
  }

  function ExperienceBlocks(es: seq<Experience>, tab: int): seq<Paragraph>
  {
    if es == [] then [] else ExperienceBlocks(es[..|es| - 1], tab) + ExperienceBlock(es[|es| - 1], tab)
  }

  function EducationBlocks(es: seq<Education>, tab: int): seq<Paragraph>
  {
    if es == [] then [] else EducationBlocks(es[..|es| - 1], tab) + EducationBlock(es[|es| - 1], tab)
  }

  function ProjectBlocks(ps: seq<Project>, tab: int): seq<Paragraph>
  {
    if ps == [] then [] else ProjectBlocks(ps[..|ps| - 1], tab) + ProjectBlock(ps[|ps| - 1], tab)
  }

  function ExperienceSection(es: seq<Experience>, tab: int): seq<Paragraph>
  {
    if es == [] then [] else [SectionHeading("WORK EXPERIENCE")] + ExperienceBlocks(es, tab)
  }

  function EducationSection(es: seq<Education>, tab: int): seq<Paragraph>
  {
    if es == [] then [] else [SectionHeading("EDUCATION")] + EducationBlocks(es, tab)
  }

  function ProjectSection(ps: seq<Project>, tab: int): seq<Paragraph>
  {
    if ps == [] then [] else [SectionHeading("PROJECTS")] + ProjectBlocks(ps, tab)
  }

  /** The body in its fixed order: a blank paragraph, the education section,
      a blank, the projects, a blank, the work experience. */
  function Body(experiences: seq<Experience>, educations: seq<Education>,
                projects: seq<Project>, tab: int): seq<Paragraph>
  {
    [Blank()] + EducationSection(educations, tab)
    + [Blank()] + ProjectSection(projects, tab)
    + [Blank()] + ExperienceSection(experiences, tab)
  }

  // ---------------------------------------------------------------------
  // The document builder

  class CurriculumVitae {
    /** Set once by the constructor and only read afterwards. */
    const name: string
    const experiences: seq<Experience>
    const educations: seq<Education>
    const projects: seq<Project>
    const topMargin: int
    const bottomMargin: int
    const leftMargin: int
    const rightMargin: int
    const rightTabPosition: int
    /** The first page's header paragraphs. */
    var header: seq<Paragraph>
    /** The body paragraphs, in document order. */
    var body: seq<Paragraph>
    /** True when building the header raised IndexError: for an empty name
        python-docx adds the name paragraph without a run, and `runs[0]`
        fails. The Python constructor then raises and no document results. */
    var failed: bool

    /** Builds the whole document. The page width is that of the document's
        first section. */
    constructor(name: string, experiences: seq<Experience>, educations: seq<Education>,
                projects: seq<Project>, pageWidth: int)
      ensures this.name == name && this.experiences == experiences
      ensures this.educations == educations && this.projects == projects
      ensures topMargin == bottomMargin == leftMargin == rightMargin == Margin
      ensures rightTabPosition == pageWidth - rightMargin - leftMargin
      ensures failed <==> name == ""
      ensures !failed ==> header == FirstPageHeader(name)
      ensures !failed ==> body == Body(experiences, educations, projects, rightTabPosition)
      ensures failed ==> header == [Paragraph([], Normal, true, None, None)] && body == []
    {
      topMargin, bottomMargin, rightMargin, leftMargin := Margin, Margin, Margin, Margin;
      rightTabPosition := pageWidth - Margin - Margin;
      this.name := name;
      this.experiences := experiences;
      this.educations := educations;
      this.projects := projects;
      header, body := [], [];
      failed := false;
      new;
      var ok := CreateHeader();
      if !ok {
        failed := true;
        return;
      }
      CreateBody();
    }

    /** The body in its fixed order; the blank separators are always there. */
    method CreateBody()
      modifies this`body
      ensures body == old(body) + Body(experiences, educations, projects, rightTabPosition)
    {
      AddSpace();
      CreateEducation();
      AddSpace();
      CreateProjects();
      AddSpace();
      CreateExperiences();
      AppendAssoc6(old(body), [Blank()], EducationSection(educations, rightTabPosition),
                   [Blank()], ProjectSection(projects, rightTabPosition),
                   [Blank()], ExperienceSection(experiences, rightTabPosition));
    }

    method AddSpace()
      modifies this`body
      ensures body == old(body) + [Blank()]
    {
      body := body + [NewParagraph("", Normal)];
    }

    method AddSectionHeading(text: string)
      requires text != ""
      modifies this`body
      ensures body == old(body) + [SectionHeading(text)]
    {
      var heading := NewParagraph(text, Normal);
      var run := heading.runs[0].(bold := true, sizePt := Some(12));
      body := body + [heading.(runs := [run])];
    }

    /** Replaces whatever the first-page header held by the name and the
        contact line; `ok` is false when `runs[0]` raised IndexError. */
    method CreateHeader() returns (ok: bool)
      modifies this`header
      ensures ok <==> name != ""
      ensures ok ==> header == FirstPageHeader(name)
      ensures !ok ==> header == [Paragraph([], Normal, true, None, None)]
    {
      var paragraphs := header;
      for i := 0 to |paragraphs|
        invariant header == paragraphs[i..]
      {
        header := header[1..];
      }
      var nameHeader := NewParagraph(name, Normal).(centered := true);
      header := header + [nameHeader];
      if |nameHeader.runs| == 0 {
        return false;
      }
      var nameRun := nameHeader.runs[0].(bold := true, sizePt := Some(28));
      header := header[0 := nameHeader.(runs := [nameRun])];
      var contactHeader := NewParagraph(ContactLine, Normal).(centered := true);
      header := header + [contactHeader];
      ok := true;
    }

    /** Appends one bullet paragraph per non-empty fragment of the
        description and gives the last one 2pt of space after it. */
    method AddDescriptionBullets(description: string)
      modifies this`body
      ensures body == old(body) + DescriptionBullets(description)
    {
      var fragments := Split(description, Bullet);
      var lastPara: Option<nat> := None;
      ghost var start := body;
      for i := 0 to |fragments|
        invariant body == start + BulletParagraphs(NonEmpty(fragments[..i]))
        invariant lastPara == None <==> NonEmpty(fragments[..i]) == []
        invariant lastPara != None ==> lastPara.value == |body| - 1
      {
        var bullet := fragments[i];
        BulletStep(fragments, i);
        if bullet == "" {
          continue;
        }
        body := body + [NewParagraph(bullet, ListBullet2)];
        lastPara := Some(|body| - 1);
      }
      TakeAll(fragments);
      if lastPara != None {
        var k := lastPara.value;
        body := body[k := body[k].(spaceAfterPt := Some(BulletSpaceAfterPt))];
      }
      SpaceAfterLastAppend(start, BulletParagraphs(NonEmpty(fragments)));
    }

    /** One experience: its header line, then its description bullets. */
    method AddExperienceBlock(experience: Experience)
      modifies this`body
      ensures body == old(body) + ExperienceBlock(experience, rightTabPosition)
    {
      ghost var start := body;
      var header := ExperienceHeaderLine(experience, rightTabPosition);
      body := body + [header];
      AddDescriptionBullets(experience.description);
      AppendAssoc(start, [header], DescriptionBullets(experience.description));
    }

    method CreateExperiences()
      modifies this`body
      ensures body == old(body) + ExperienceSection(experiences, rightTabPosition)
    {
      if |experiences| == 0 {
        return;
      }
      AddSectionHeading("WORK EXPERIENCE");
      AddExperienceBlocks(experiences);
      AppendAssoc(old(body), [SectionHeading("WORK EXPERIENCE")], ExperienceBlocks(experiences, rightTabPosition));
    }

    /** The entries of one section, in list order. */
    method AddExperienceBlocks(es: seq<Experience>)
      modifies this`body
      ensures body == old(body) + ExperienceBlocks(es, rightTabPosition)
    {
      ghost var start := body;
      for i := 0 to |es|
        invariant body == start + ExperienceBlocks(es[..i], rightTabPosition)
      {
        ExperienceBlocksStep(start, es, i, rightTabPosition);
        AddExperienceBlock(es[i]);
      }
      TakeAll(es);
    }

    /** One education: header line, stripped degree, and, when the list is
        non-empty, the italic "Extracurriculars" line and one bullet per
        stripped item. */
    method AddEducationBlock(education: Education)
      modifies this`body
      ensures body == old(body) + EducationBlock(education, rightTabPosition)
    {
      ghost var start := body;
      var header := EducationHeaderLine(education, rightTabPosition);
      var degree := NewParagraph(Strip(education.degree), Normal);
      body := body + [header];
      body := body + [degree];
      ghost var lines := body;
      if |education.extracurriculars| > 0 {
        body := body + [ExtracurricularsHeading()];
        AddExtracurricularBullets(education.extracurriculars);
        AppendAssoc(lines, [ExtracurricularsHeading()], ExtracurricularBullets(education.extracurriculars));
      } else {
        AppendNil(lines);
      }
      EducationBlockAfter(start, header, degree, ExtracurricularsPart(education.extracurriculars));
    }

    /** One bullet paragraph per extracurricular, each stripped. */
    method AddExtracurricularBullets(items: seq<string>)
      modifies this`body
      ensures body == old(body) + ExtracurricularBullets(items)
    {
      ghost var start := body;
      for j := 0 to |items|
        invariant body == start + ExtracurricularBullets(items[..j])
      {
        var bullet := ExtracurricularBullet(items[j]);
        ExtracurricularStep(start, items, j);
        body := body + [bullet];
      }
      TakeAll(items);
    }

    method CreateEducation()
      modifies this`body
      ensures body == old(body) + EducationSection(educations, rightTabPosition)
    {
      if |educations| == 0 {
        return;
      }
      AddSectionHeading("EDUCATION");
      AddEducationBlocks(educations);
      AppendAssoc(old(body), [SectionHeading("EDUCATION")], EducationBlocks(educations, rightTabPosition));
    }

    /** The entries of one section, in list order. */
    method AddEducationBlocks(es: seq<Education>)
      modifies this`body
      ensures body == old(body) + EducationBlocks(es, rightTabPosition)
    {
      ghost var start := body;
      for i := 0 to |es|
        invariant body == start + EducationBlocks(es[..i], rightTabPosition)
      {
        EducationBlocksStep(start, es, i, rightTabPosition);
        AddEducationBlock(es[i]);
      }
      TakeAll(es);
    }

    /** One project: its header line, then its description bullets. */
    method AddProjectBlock(project: Project)
      modifies this`body
      ensures body == old(body) + ProjectBlock(project, rightTabPosition)
    {
      ghost var start := body;
      var header := ProjectHeaderLine(project, rightTabPosition);
      body := body + [header];
      AddDescriptionBullets(project.description);
      AppendAssoc(start, [header], DescriptionBullets(project.description));
    }

    method CreateProjects()
      modifies this`body
      ensures body == old(body) + ProjectSection(projects, rightTabPosition)
    {
      if |projects| == 0 {
        return;
      }
      AddSectionHeading("PROJECTS");
      AddProjectBlocks(projects);
      AppendAssoc(old(body), [SectionHeading("PROJECTS")], ProjectBlocks(projects, rightTabPosition));
    }

    /** The entries of one section, in list order. */
    method AddProjectBlocks(ps: seq<Project>)
      modifies this`body
      ensures body == old(body) + ProjectBlocks(ps, rightTabPosition)
    {
      ghost var start := body;
      for i := 0 to |ps|
        invariant body == start + ProjectBlocks(ps[..i], rightTabPosition)
      {
        ProjectBlocksStep(start, ps, i, rightTabPosition);
        AddProjectBlock(ps[i]);
      }
      TakeAll(ps);
    }
  }

  // ---------------------------------------------------------------------
  // Helper lemmas for the loops above

  lemma AppendAssoc6<T>(s: seq<T>, a: seq<T>, b: seq<T>, c: seq<T>, d: seq<T>, e: seq<T>, f: seq<T>)
    ensures s + (a + b + c + d + e + f) == s + a + b + c + d + e + f
  {
    AppendAssoc(s, a + b + c + d + e, f);
    AppendAssoc(s, a + b + c + d, e);
    AppendAssoc(s, a + b + c, d);
    AppendAssoc(s, a + b, c);
    AppendAssoc(s, a, b);
  }

  lemma EducationBlockAfter(start: seq<Paragraph>, header: Paragraph, degree: Paragraph, rest: seq<Paragraph>)
    ensures start + ([header] + [degree] + rest) == ((start + [header]) + [degree]) + rest
  {
    AppendAssoc(start, [header] + [degree], rest);
    AppendAssoc(start, [header], [degree]);
  }

  lemma ExperienceBlocksStep(start: seq<Paragraph>, es: seq<Experience>, i: nat, tab: int)
    requires i < |es|
    ensures start + ExperienceBlocks(es[..i + 1], tab) == (start + ExperienceBlocks(es[..i], tab)) + ExperienceBlock(es[i], tab)
  {
    TakeTake(es, i);
    AppendAssoc(start, ExperienceBlocks(es[..i], tab), ExperienceBlock(es[i], tab));
  }


  lemma EducationBlocksStep(start: seq<Paragraph>, es: seq<Education>, i: nat, tab: int)
    requires i < |es|
    ensures start + EducationBlocks(es[..i + 1], tab) == (start + EducationBlocks(es[..i], tab)) + EducationBlock(es[i], tab)
  {
    TakeTake(es, i);
    AppendAssoc(start, EducationBlocks(es[..i], tab), EducationBlock(es[i], tab));
  }


  lemma ProjectBlocksStep(start: seq<Paragraph>, ps: seq<Project>, i: nat, tab: int)
    requires i < |ps|
    ensures start + ProjectBlocks(ps[..i + 1], tab) == (start + ProjectBlocks(ps[..i], tab)) + ProjectBlock(ps[i], tab)
  {
    TakeTake(ps, i);
    AppendAssoc(start, ProjectBlocks(ps[..i], tab), ProjectBlock(ps[i], tab));
  }


  lemma {:induction false} NonEmptySnoc(pieces: seq<string>, piece: string)
    ensures NonEmpty(pieces + [piece]) == NonEmpty(pieces) + NonEmpty([piece])
    decreases |pieces|
  {
    if pieces != [] {
      assert (pieces + [piece])[1..] == pieces[1..] + [piece];
      NonEmptySnoc(pieces[1..], piece);
    } else {
      assert pieces + [piece] == [piece];
    }
  }

  /** One more fragment adds one bullet paragraph unless it is "". */
  lemma BulletStep(fragments: seq<string>, i: nat)
    requires i < |fragments|
    ensures BulletParagraphs(NonEmpty(fragments[..i + 1]))
         == BulletParagraphs(NonEmpty(fragments[..i]))
            + (if fragments[i] == "" then [] else [NewParagraph(fragments[i], ListBullet2)])
    ensures NonEmpty(fragments[..i + 1]) == [] <==> NonEmpty(fragments[..i]) == [] && fragments[i] == ""
  {
    assert fragments[..i + 1] == fragments[..i] + [fragments[i]];
    NonEmptySnoc(fragments[..i], fragments[i]);
    BulletParagraphsAppend(NonEmpty(fragments[..i]), NonEmpty([fragments[i]]));
  }

  /** Marking the last paragraph of a non-empty tail changes only the tail. */
  lemma SpaceAfterLastAppend(start: seq<Paragraph>, ps: seq<Paragraph>)
    ensures ps != [] ==> (SpaceAfterLast(start + ps) == start + SpaceAfterLast(ps))
    ensures ps == [] ==> start + SpaceAfterLast(ps) == start
  {
  }

  lemma {:induction false} BulletParagraphsAppend(a: seq<string>, b: seq<string>)
    ensures BulletParagraphs(a + b) == BulletParagraphs(a) + BulletParagraphs(b)
    decreases |a|
  {
    if a != [] {
      TailOfAppend(a, b);
      BulletParagraphsAppend(a[1..], b);
    } else {
      assert a + b == b;
    }
  }

  lemma ExtracurricularStep(start: seq<Paragraph>, items: seq<string>, j: nat)
    requires j < |items|
    ensures start + ExtracurricularBullets(items[..j + 1])
         == (start + ExtracurricularBullets(items[..j])) + [ExtracurricularBullet(items[j])]
  {
    TakeSnoc(items, j);
    MapSnoc(items[..j], items[j], ExtracurricularBullet);
    AppendAssoc(start, ExtracurricularBullets(items[..j]), [ExtracurricularBullet(items[j])]);
  }
}
