/** What the résumé layout of Scripts/CVs.py guarantees: date texts, bullet
    splitting, which sections appear and in what order, and how many body
    paragraphs a profile yields. */
module CVsLemmas {
  import opened PyBuiltins
  import opened Seqs
  import opened CVs

  // ---------------------------------------------------------------------
  // Dates

  /** An experience or project date reads "Present" exactly when the end date
      is the empty string; an end date of blanks is stripped to nothing
      instead, and otherwise the text is the education form. */
  lemma DateRanges(startDate: string, endDate: string)
    ensures endDate == "" ==> OpenDateRange(startDate, endDate) == Strip(startDate) + DateSeparator + "Present"
    ensures endDate != "" && AllSpace(endDate) ==> OpenDateRange(startDate, endDate) == Strip(startDate) + DateSeparator
    ensures OpenDateRange(startDate, endDate) == ClosedDateRange(startDate, endDate) <==> endDate != ""
  {
    StripEmpty(endDate);
    if endDate == "" {
      assert |ClosedDateRange(startDate, endDate)| < |OpenDateRange(startDate, endDate)|;
    }
  }

  // ---------------------------------------------------------------------
  // Bullets

  /** NonEmpty keeps exactly the pieces that are not "", in order. */
  lemma {:induction false} NonEmptyMembers(pieces: seq<string>)
    ensures forall t :: t in NonEmpty(pieces) <==> t in pieces && t != ""
    ensures |NonEmpty(pieces)| <= |pieces|
    decreases |pieces|
  {
    if pieces != [] {
      NonEmptyMembers(pieces[1..]);
      assert pieces == [pieces[0]] + pieces[1..];
    }
  }

  /** Dropping empty pieces does not change what they spell. */
  lemma {:induction false} ConcatNonEmpty(pieces: seq<string>)
    ensures Concat(NonEmpty(pieces)) == Concat(pieces)
    decreases |pieces|
  {
    if pieces != [] {
      ConcatNonEmpty(pieces[1..]);
      ConcatAppend(if pieces[0] == "" then [] else [pieces[0]], NonEmpty(pieces[1..]));
    }
  }

  /** The bullets of a description are its non-empty fragments between
      bullet characters: none is "", none holds a bullet character, every
      non-empty fragment (whitespace-only ones included) is one, and
      together they spell the description without its bullet characters. */
  lemma BulletTextsSpec(description: string)
    ensures forall t :: t in BulletTexts(description) ==> t != "" && Bullet !in t
    ensures forall f :: f in Split(description, Bullet) && f != "" ==> f in BulletTexts(description)
    ensures Concat(BulletTexts(description)) == RemoveAll(description, [Bullet])
    ensures |BulletTexts(description)| <= multiset(description)[Bullet] + 1
  {
    var fragments := Split(description, Bullet);
    NonEmptyMembers(fragments);
    SplitPiecesFree(description, Bullet);
    SplitCount(description, Bullet);
    ConcatNonEmpty(fragments);
    ConcatSplit(description, Bullet);
  }

  lemma {:induction false} BulletParagraphsAt(texts: seq<string>)
    ensures |BulletParagraphs(texts)| == |texts|
    ensures forall k :: 0 <= k < |texts| ==> BulletParagraphs(texts)[k] == NewParagraph(texts[k], ListBullet2)
    decreases |texts|
  {
    if texts != [] {
      BulletParagraphsAt(texts[1..]);
    }
  }

  /** A description shows one bullet-style paragraph per bullet text, in
      order, and only the last one has space after it (2pt). */
  lemma DescriptionBulletsShape(description: string)
    ensures var ps := DescriptionBullets(description);
      var texts := BulletTexts(description);
      && |ps| == |texts|
      && (forall k :: 0 <= k < |ps| ==> Text(ps[k]) == texts[k] && ps[k].style == ListBullet2)
      && (forall k :: 0 <= k < |ps| ==> (ps[k].spaceAfterPt == Some(BulletSpaceAfterPt) <==> k == |ps| - 1))
      && (forall k :: 0 <= k < |ps| - 1 ==> ps[k].spaceAfterPt == None)
  {
    var texts := BulletTexts(description);
    BulletParagraphsAt(texts);
    var plain := BulletParagraphs(texts);
    var ps := DescriptionBullets(description);
    if plain != [] {
      forall k | 0 <= k < |ps|
        ensures Text(ps[k]) == texts[k] && ps[k].style == ListBullet2
        ensures ps[k].spaceAfterPt == Some(BulletSpaceAfterPt) <==> k == |ps| - 1
      {
        if k < |ps| - 1 {
          assert ps[k] == plain[k];
        } else {
          assert ps[k] == plain[k].(spaceAfterPt := Some(BulletSpaceAfterPt));
        }
      }
    }
  }

  // ---------------------------------------------------------------------
  // Sections

  /** The blocks of a list of entries, laid out one after the other: the
      shape the three Blocks functions share. */
  function Flatten<T>(xs: seq<T>, block: T -> seq<Paragraph>): seq<Paragraph>
  {
    if xs == [] then [] else Flatten(xs[..|xs| - 1], block) + block(xs[|xs| - 1])
  }

  lemma {:induction false} FlattenAppend<T>(a: seq<T>, b: seq<T>, block: T -> seq<Paragraph>)
    ensures Flatten(a + b, block) == Flatten(a, block) + Flatten(b, block)
    decreases |b|
  {
    if b == [] {
      AppendNil(a);
    } else {
      var n := |b| - 1;
      InitOfAppend(a, b);
      FlattenAppend(a, b[..n], block);
    }
  }

  function ExperienceBlockAt(tab: int): Experience -> seq<Paragraph>
  {
    e => ExperienceBlock(e, tab)
  }

  function EducationBlockAt(tab: int): Education -> seq<Paragraph>
  {
    e => EducationBlock(e, tab)
  }

  function ProjectBlockAt(tab: int): Project -> seq<Paragraph>
  {
    p => ProjectBlock(p, tab)
  }

  lemma {:induction false} ExperienceBlocksFlatten(es: seq<Experience>, tab: int)
    ensures ExperienceBlocks(es, tab) == Flatten(es, ExperienceBlockAt(tab))
    decreases |es|
  {
    if es != [] {
      ExperienceBlocksFlatten(es[..|es| - 1], tab);
    }
  }

  lemma {:induction false} EducationBlocksFlatten(es: seq<Education>, tab: int)
    ensures EducationBlocks(es, tab) == Flatten(es, EducationBlockAt(tab))
    decreases |es|
  {
    if es != [] {
      EducationBlocksFlatten(es[..|es| - 1], tab);
    }
  }

  lemma {:induction false} ProjectBlocksFlatten(ps: seq<Project>, tab: int)
    ensures ProjectBlocks(ps, tab) == Flatten(ps, ProjectBlockAt(tab))
    decreases |ps|
  {
    if ps != [] {
      ProjectBlocksFlatten(ps[..|ps| - 1], tab);
    }
  }

  lemma ExperienceBlocksAppend(a: seq<Experience>, b: seq<Experience>, tab: int)
    ensures ExperienceBlocks(a + b, tab) == ExperienceBlocks(a, tab) + ExperienceBlocks(b, tab)
  {
    ExperienceBlocksFlatten(a, tab);
    ExperienceBlocksFlatten(b, tab);
    ExperienceBlocksFlatten(a + b, tab);
    FlattenAppend(a, b, ExperienceBlockAt(tab));
  }

  lemma EducationBlocksAppend(a: seq<Education>, b: seq<Education>, tab: int)
    ensures EducationBlocks(a + b, tab) == EducationBlocks(a, tab) + EducationBlocks(b, tab)
  {
    EducationBlocksFlatten(a, tab);
    EducationBlocksFlatten(b, tab);
    EducationBlocksFlatten(a + b, tab);
    FlattenAppend(a, b, EducationBlockAt(tab));
  }

  lemma ProjectBlocksAppend(a: seq<Project>, b: seq<Project>, tab: int)
    ensures ProjectBlocks(a + b, tab) == ProjectBlocks(a, tab) + ProjectBlocks(b, tab)
  {
    ProjectBlocksFlatten(a, tab);
    ProjectBlocksFlatten(b, tab);
    ProjectBlocksFlatten(a + b, tab);
    FlattenAppend(a, b, ProjectBlockAt(tab));
  }

  /** Entry k's block stands after the blocks of the entries before it and
      before those of the entries after it. */
  lemma FlattenAt<T>(xs: seq<T>, k: nat, block: T -> seq<Paragraph>)
    requires k < |xs|
    ensures Flatten(xs, block) == Flatten(xs[..k], block) + block(xs[k]) + Flatten(xs[k + 1..], block)
  {
    FlattenAround(xs[..k], xs[k], xs[k + 1..], block);
    Around(xs, k);
  }


  lemma FlattenAround<T>(a: seq<T>, x: T, b: seq<T>, block: T -> seq<Paragraph>)
    ensures Flatten(a + [x] + b, block) == Flatten(a, block) + block(x) + Flatten(b, block)
  {
    FlattenAppend(a + [x], b, block);
    FlattenAppend(a, [x], block);
    FlattenOne(x, block);
  }

  lemma FlattenOne<T>(x: T, block: T -> seq<Paragraph>)
    ensures Flatten([x], block) == block(x)
  {
    assert [x][..0] == [];
  }

  /** A section is absent exactly when its list is empty; otherwise it is
      its heading followed by the entries, entry k standing after the
      entries before it and before the entries after it. */
  lemma ExperienceSectionLayout(es: seq<Experience>, tab: int, k: nat)
    requires k < |es|
    ensures ExperienceSection(es, tab)
         == [SectionHeading("WORK EXPERIENCE")]
            + (ExperienceBlocks(es[..k], tab) + ExperienceBlock(es[k], tab) + ExperienceBlocks(es[k + 1..], tab))
  {
    var block := ExperienceBlockAt(tab);
    ExperienceBlocksFlatten(es, tab);
    ExperienceBlocksFlatten(es[..k], tab);
    ExperienceBlocksFlatten(es[k + 1..], tab);
    FlattenAt(es, k, block);
    var before, here, after := ExperienceBlocks(es[..k], tab), ExperienceBlock(es[k], tab), ExperienceBlocks(es[k + 1..], tab);
    assert block(es[k]) == here;
    assert ExperienceBlocks(es, tab) == before + here + after;
    assert ExperienceSection(es, tab) == [SectionHeading("WORK EXPERIENCE")] + ExperienceBlocks(es, tab);
  }

  lemma EducationSectionLayout(es: seq<Education>, tab: int, k: nat)
    requires k < |es|
    ensures EducationSection(es, tab)
         == [SectionHeading("EDUCATION")]
            + (EducationBlocks(es[..k], tab) + EducationBlock(es[k], tab) + EducationBlocks(es[k + 1..], tab))
  {
    var block := EducationBlockAt(tab);
    EducationBlocksFlatten(es, tab);
    EducationBlocksFlatten(es[..k], tab);
    EducationBlocksFlatten(es[k + 1..], tab);
    FlattenAt(es, k, block);
    var before, here, after := EducationBlocks(es[..k], tab), EducationBlock(es[k], tab), EducationBlocks(es[k + 1..], tab);
    assert block(es[k]) == here;
    assert EducationBlocks(es, tab) == before + here + after;
    assert EducationSection(es, tab) == [SectionHeading("EDUCATION")] + EducationBlocks(es, tab);
  }

  lemma ProjectSectionLayout(ps: seq<Project>, tab: int, k: nat)
    requires k < |ps|
    ensures ProjectSection(ps, tab)
         == [SectionHeading("PROJECTS")]
            + (ProjectBlocks(ps[..k], tab) + ProjectBlock(ps[k], tab) + ProjectBlocks(ps[k + 1..], tab))
  {
    var block := ProjectBlockAt(tab);
    ProjectBlocksFlatten(ps, tab);
    ProjectBlocksFlatten(ps[..k], tab);
    ProjectBlocksFlatten(ps[k + 1..], tab);
    FlattenAt(ps, k, block);
    var before, here, after := ProjectBlocks(ps[..k], tab), ProjectBlock(ps[k], tab), ProjectBlocks(ps[k + 1..], tab);
    assert block(ps[k]) == here;
    assert ProjectBlocks(ps, tab) == before + here + after;
    assert ProjectSection(ps, tab) == [SectionHeading("PROJECTS")] + ProjectBlocks(ps, tab);
  }

  /** Where the separators of `[sep] + a + [sep] + b + [sep] + c` lie. */
  lemma Separators<T>(sep: T, a: seq<T>, b: seq<T>, c: seq<T>)
    ensures |[sep] + a + [sep] + b + [sep] + c| == 3 + |a| + |b| + |c|
    ensures ([sep] + a + [sep] + b + [sep] + c)[0] == sep
    ensures ([sep] + a + [sep] + b + [sep] + c)[1 + |a|] == sep
    ensures ([sep] + a + [sep] + b + [sep] + c)[2 + |a| + |b|] == sep
  {
  }

  /** Where each non-empty piece of `[sep] + a + [sep] + b + [sep] + c` starts. */
  lemma PieceStarts<T>(sep: T, a: seq<T>, b: seq<T>, c: seq<T>)
    ensures a != [] ==> ([sep] + a + [sep] + b + [sep] + c)[1] == a[0]
    ensures b != [] ==> 2 + |a| < |[sep] + a + [sep] + b + [sep] + c| && ([sep] + a + [sep] + b + [sep] + c)[2 + |a|] == b[0]
    ensures c != [] ==> 3 + |a| + |b| < |[sep] + a + [sep] + b + [sep] + c| && ([sep] + a + [sep] + b + [sep] + c)[3 + |a| + |b|] == c[0]
  {
  }

  lemma FirstPiece<T>(sep: T, a: seq<T>, b: seq<T>, c: seq<T>)
    ensures ([sep] + a + [sep] + b + [sep] + c)[1..1 + |a|] == a
  {
  }

  lemma SecondPiece<T>(sep: T, a: seq<T>, b: seq<T>, c: seq<T>)
    ensures ([sep] + a + [sep] + b + [sep] + c)[2 + |a|..2 + |a| + |b|] == b
  {
  }

  lemma ThirdPiece<T>(sep: T, a: seq<T>, b: seq<T>, c: seq<T>)
    ensures ([sep] + a + [sep] + b + [sep] + c)[3 + |a| + |b|..] == c
  {
  }

  /** A section is empty exactly when its list is, and a present section
      opens with its heading. */
  lemma SectionsPresence(experiences: seq<Experience>, educations: seq<Education>, projects: seq<Project>, tab: int)
    ensures EducationSection(educations, tab) == [] <==> educations == []
    ensures ProjectSection(projects, tab) == [] <==> projects == []
    ensures ExperienceSection(experiences, tab) == [] <==> experiences == []
    ensures educations != [] ==> EducationSection(educations, tab)[0] == SectionHeading("EDUCATION")
    ensures projects != [] ==> ProjectSection(projects, tab)[0] == SectionHeading("PROJECTS")
    ensures experiences != [] ==> ExperienceSection(experiences, tab)[0] == SectionHeading("WORK EXPERIENCE")
  {
  }

  /** The body has three blank separators, whatever the lists hold. */
  lemma BodyBlanks(experiences: seq<Experience>, educations: seq<Education>, projects: seq<Project>, tab: int)
    ensures var body := Body(experiences, educations, projects, tab);
      var e := |EducationSection(educations, tab)|;
      var p := |ProjectSection(projects, tab)|;
      && |body| == 3 + e + p + |ExperienceSection(experiences, tab)|
      && body[0] == Blank() && body[1 + e] == Blank() && body[2 + e + p] == Blank()
  {
    Separators(Blank(), EducationSection(educations, tab), ProjectSection(projects, tab), ExperienceSection(experiences, tab));
  }

  /** The education section stands between the first and second blanks. */
  lemma BodyEducation(experiences: seq<Experience>, educations: seq<Education>, projects: seq<Project>, tab: int)
    ensures var body := Body(experiences, educations, projects, tab);
      var edu := EducationSection(educations, tab);
      1 + |edu| <= |body| && body[1..1 + |edu|] == edu
  {
    FirstPiece(Blank(), EducationSection(educations, tab), ProjectSection(projects, tab), ExperienceSection(experiences, tab));
  }

  /** The projects section stands between the second and third blanks. */
  lemma BodyProjects(experiences: seq<Experience>, educations: seq<Education>, projects: seq<Project>, tab: int)
    ensures var body := Body(experiences, educations, projects, tab);
      var e := |EducationSection(educations, tab)|;
      var proj := ProjectSection(projects, tab);
      2 + e + |proj| <= |body| && body[2 + e..2 + e + |proj|] == proj
  {
    SecondPiece(Blank(), EducationSection(educations, tab), ProjectSection(projects, tab), ExperienceSection(experiences, tab));
  }

  /** The work-experience section follows the third blank and ends the body. */
  lemma BodyExperience(experiences: seq<Experience>, educations: seq<Education>, projects: seq<Project>, tab: int)
    ensures var body := Body(experiences, educations, projects, tab);
      var e := |EducationSection(educations, tab)|;
      var p := |ProjectSection(projects, tab)|;
      3 + e + p <= |body| && body[3 + e + p..] == ExperienceSection(experiences, tab)
  {
    ThirdPiece(Blank(), EducationSection(educations, tab), ProjectSection(projects, tab), ExperienceSection(experiences, tab));
  }

  /** Each present section opens with its heading right after its blank
      separator. */
  lemma BodyHeadings(experiences: seq<Experience>, educations: seq<Education>, projects: seq<Project>, tab: int)
    ensures var body := Body(experiences, educations, projects, tab);
      var e := |EducationSection(educations, tab)|;
      var p := |ProjectSection(projects, tab)|;
      && (educations != [] ==> 1 < |body| && body[1] == SectionHeading("EDUCATION"))
      && (projects != [] ==> 2 + e < |body| && body[2 + e] == SectionHeading("PROJECTS"))
      && (experiences != [] ==> 3 + e + p < |body| && body[3 + e + p] == SectionHeading("WORK EXPERIENCE"))
  {
    SectionsPresence(experiences, educations, projects, tab);
    PieceStarts(Blank(), EducationSection(educations, tab), ProjectSection(projects, tab), ExperienceSection(experiences, tab));
  }

  /** With every list empty the body is the three blanks alone. */
  lemma BodyEmpty(experiences: seq<Experience>, educations: seq<Education>, projects: seq<Project>, tab: int)
    requires experiences == [] && educations == [] && projects == []
    ensures Body(experiences, educations, projects, tab) == [Blank(), Blank(), Blank()]
  {
    var blank := Blank();
    assert [blank] + [] + [blank] + [] + [blank] + [] == [blank, blank, blank];
  }

  // ---------------------------------------------------------------------
  // Paragraph counts

  /** Body paragraphs per experience: its header line and its bullets. */
  function ExperienceLines(es: seq<Experience>): nat
  {
    if es == [] then 0
    else ExperienceLines(es[..|es| - 1]) + 1 + |BulletTexts(es[|es| - 1].description)|
  }

  /** Body paragraphs per education: header line, degree line and, for a
      non-empty list, the "Extracurriculars" line and one per item. */
  function EducationLines(es: seq<Education>): nat
  {
    if es == [] then 0
    else
      var items := es[|es| - 1].extracurriculars;
      EducationLines(es[..|es| - 1]) + 2 + (if |items| > 0 then 1 + |items| else 0)
  }

  /** Body paragraphs per project: its header line and its bullets. */
  function ProjectLines(ps: seq<Project>): nat
  {
    if ps == [] then 0
    else ProjectLines(ps[..|ps| - 1]) + 1 + |BulletTexts(ps[|ps| - 1].description)|
  }

  /** An experience takes its header line and one paragraph per bullet. */
  lemma ExperienceBlockLength(e: Experience, tab: int)
    ensures |ExperienceBlock(e, tab)| == 1 + |BulletTexts(e.description)|
  {
    DescriptionBulletsShape(e.description);
  }

  /** A project takes its header line and one paragraph per bullet. */
  lemma ProjectBlockLength(p: Project, tab: int)
    ensures |ProjectBlock(p, tab)| == 1 + |BulletTexts(p.description)|
  {
    DescriptionBulletsShape(p.description);
  }

  /** For a non-empty list: the "Extracurriculars" line first, then one
      bullet per item; nothing at all for an empty list. */
  lemma ExtracurricularsPartShape(items: seq<string>)
    ensures |ExtracurricularsPart(items)| == if |items| > 0 then 1 + |items| else 0
    ensures |items| > 0 ==> ExtracurricularsPart(items)[0] == ExtracurricularsHeading()
    ensures forall k :: 1 <= k < |ExtracurricularsPart(items)| ==> ExtracurricularsPart(items)[k].style == ListBullet2
  {
    ExtracurricularBulletsAt(items);
    if |items| > 0 {
      var bullets := ExtracurricularBullets(items);
      forall k | 1 <= k < 1 + |items| ensures ([ExtracurricularsHeading()] + bullets)[k].style == ListBullet2 {
        assert ([ExtracurricularsHeading()] + bullets)[k] == bullets[k - 1];
      }
    }
  }

  /** An education's block: header line, degree line and, for a non-empty
      list, the "Extracurriculars" line third, then one bullet per item. */
  lemma EducationBlockShape(e: Education, tab: int)
    ensures |EducationBlock(e, tab)| == 2 + (if |e.extracurriculars| > 0 then 1 + |e.extracurriculars| else 0)
    ensures |e.extracurriculars| > 0 ==> EducationBlock(e, tab)[2] == ExtracurricularsHeading()
    ensures forall k :: 3 <= k < |EducationBlock(e, tab)| ==> EducationBlock(e, tab)[k].style == ListBullet2
  {
    var part := ExtracurricularsPart(e.extracurriculars);
    ExtracurricularsPartShape(e.extracurriculars);
    var head: seq<Paragraph> := [EducationHeaderLine(e, tab)] + [NewParagraph(Strip(e.degree), Normal)];
    forall k | 2 <= k < |head + part| ensures (head + part)[k] == part[k - 2] { }
  }

  lemma {:induction false} ExperienceBlocksLength(es: seq<Experience>, tab: int)
    ensures |ExperienceBlocks(es, tab)| == ExperienceLines(es)
    decreases |es|
  {
    if es != [] {
      var n := |es| - 1;
      ExperienceBlocksLength(es[..n], tab);
      ExperienceBlockLength(es[n], tab);
    }
  }

  lemma {:induction false} EducationBlocksLength(es: seq<Education>, tab: int)
    ensures |EducationBlocks(es, tab)| == EducationLines(es)
    decreases |es|
  {
    if es != [] {
      var n := |es| - 1;
      EducationBlocksLength(es[..n], tab);
      EducationBlockShape(es[n], tab);
    }
  }

  lemma {:induction false} ProjectBlocksLength(ps: seq<Project>, tab: int)
    ensures |ProjectBlocks(ps, tab)| == ProjectLines(ps)
    decreases |ps|
  {
    if ps != [] {
      var n := |ps| - 1;
      ProjectBlocksLength(ps[..n], tab);
      ProjectBlockLength(ps[n], tab);
    }
  }

  /** The number of body paragraphs is fixed by the entries: three blanks,
      and for every non-empty section its heading plus, per experience or
      project, one line and one per bullet, and per education two lines and
      the extracurriculars block. */
  lemma BodyParagraphCount(experiences: seq<Experience>, educations: seq<Education>,
                           projects: seq<Project>, tab: int)
    ensures |Body(experiences, educations, projects, tab)|
         == 3
            + (if educations == [] then 0 else 1 + EducationLines(educations))
            + (if projects == [] then 0 else 1 + ProjectLines(projects))
            + (if experiences == [] then 0 else 1 + ExperienceLines(experiences))
  {
    ExperienceBlocksLength(experiences, tab);
    EducationBlocksLength(educations, tab);
    ProjectBlocksLength(projects, tab);
  }

  /** An education built by its constructor always shows the
      "Extracurriculars" line, third in its block, followed by one bullet
      per comma-separated item: 3 + (commas + 1) paragraphs. */
  lemma ConstructedEducationBlock(
    institution: string, location: string, degree: string, extracurriculars: string,
    description: string, startDate: string, endDate: string, tab: int)
    ensures var e := NewEducation(institution, location, degree, extracurriculars,
                                  description, startDate, endDate);
      var block := EducationBlock(e, tab);
      && |block| == 4 + multiset(extracurriculars)[',']
      && block[2] == ExtracurricularsHeading()
      && (forall k :: 3 <= k < |block| ==> block[k].style == ListBullet2)
  {
    var e := NewEducation(institution, location, degree, extracurriculars,
                          description, startDate, endDate);
    EducationBlockShape(e, tab);
  }

  lemma ExtracurricularBulletsAt(items: seq<string>)
    ensures |ExtracurricularBullets(items)| == |items|
    ensures forall k :: 0 <= k < |items| ==> ExtracurricularBullets(items)[k] == NewParagraph(Strip(items[k]), ListBullet2)
  {
    MapAt(items, ExtracurricularBullet);
  }
}
