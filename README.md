# LinkedInToCV, modelled in Dafny

LinkedInToCV signs in to LinkedIn in a browser and scrapes a profile into a
`LinkedinProfile`. The profile holds a name, an "about" text and three lists:
experiences, educations and projects. The program then renders the profile
as a one-page Word résumé, a `CurriculumVitae`. This project models the core
of that pipeline and proves what it does:

- **Login classification** (`LinkedinObjects.LoginOutcome`). The URL shown
  after sign-in gives FAIL, VERIFY or SUCCESS.
- **The span filter.** Each details-page entry is read as a list of
  `<span>`s. Spans whose class holds `visually-hidden`, `white-space-pre`
  or `t-14` are dropped. The experience pass also counts the bold spans.
  The texts that remain form the list the code calls `actual_info`.
- **The positional parsers.** These turn `actual_info` into an
  `Education`, one or more `Experience`s (single-role or multi-role
  entries) or a `Project`. They cover every `IndexError` the code can
  raise.
- **The three passes and `scrape_profile`.** The education and projects
  passes skip an entry that raises. An `IndexError` in the experience pass
  is not caught, so it ends the scrape. The passes run in the order
  experience, projects, education.
- **The `LinkedinProfile` record** and its setters. It is a Dafny class
  whose list fields the methods reassign.
- **The résumé layout of `Scripts/CVs.py`.** This covers the entities, the
  margins, the tab position, the first-page header and the body. The body
  is a blank paragraph, then education, a blank, projects, a blank and
  experience. Each section has a heading, then one block per entry: a
  header line with a right tab and the dates, followed by bullets. The
  document is a class whose `header` and `body` sequences of paragraph
  records grow as the Python methods add paragraphs. The attributes the
  Python constructor sets once and never changes (the name, the lists, the
  margins and the tab position) are `const` fields.

The files:

- `py_builtins.dfy` (module `PyBuiltins`) states the Python string
  built-ins the code relies on: `strip`, `split` with a one-character
  separator, `startswith`, `in`, `replace(x, "")` and `join`. It also
  defines `Result`, which carries `IndexError`.
- `cvs.dfy` (module `CVs`) holds the entities, the layout functions and the
  `CurriculumVitae` class.
- `cvs_lemmas.dfy` holds the layout properties.
- `linkedin_objects.dfy` (module `LinkedinObjects`) holds the login
  outcome, the spans, the parsers with their loops, the passes, the
  `LinkedinProfile` class and `ScrapeProfile`.
- `linkedin_lemmas.dfy` holds the parser and pass properties.

Each `for` and `while` loop in the Python code is a loop in a Dafny
`method`. The header-clearing loop of `__create_header__` is one of them.
Where a loop computes a value or appends to a list, its method is proved
against a specification function, and the lemmas are stated about those
functions. The `any(...)` test of the span filter is the predicate
`IsNoise`.

### Behaviour worth knowing

- **Experience entries.** Per experience entry, the code catches only the
  browser's `NoSuchElementException`. An `IndexError` keeps the roles
  already appended. It ends the experience pass and escapes
  `scrape_profile`, so the projects and education passes do not run
  (`ScrapeProfile`, `UntilAbortPrefix`). The education and projects passes
  catch every exception and skip the entry.
- **"Present".** An end date is rendered as "Present" only for experiences
  and projects, and only when it is exactly `""`. A whitespace-only end
  date gives an empty date, and an education never shows "Present"
  (`DateRanges`).
- **Bullets.** The code discards the result of `bullet.strip()`, so
  whitespace-only description fragments still become bullets
  (`BulletTextsSpec`).
- **Extracurriculars.** `"".split(',')` is `[""]`, so the extracurriculars
  list is never empty. An education therefore always shows the
  "Extracurriculars" line, with one empty bullet when it has none
  (`ConstructedEducationBlock`).
- **Empty name.** With an empty name, python-docx adds the name paragraph
  without a run, and `runs[0]` raises `IndexError`. No document results
  (`CurriculumVitae.failed`).

## Model

| member | source | states |
|---|---|---|
| PyBuiltins.LeadingSpacesSpec | Scripts/linkedinObjects.py:82 | the leading run that lstrip drops is all whitespace and is followed by a non-space character or the end |
| PyBuiltins.TrailingSpacesSpec | Scripts/linkedinObjects.py:82 | the trailing run that rstrip drops is all whitespace and is preceded by a non-space character or the start |
| PyBuiltins.Strip | Scripts/linkedinObjects.py:82 | `str.strip()`: drops the leading and the trailing whitespace run and is never longer; StripInfix, StripBorders, StripEmpty and StripIdempotent state what it keeps |
| PyBuiltins.StartsWith | Scripts/linkedinObjects.py:86 | `str.startswith(prefix)`: the text begins with the prefix |
| PyBuiltins.Contains | Scripts/linkedinObjects.py:75 | the substring test `sub in s`; ContainsAt states it |
| PyBuiltins.Join | Scripts/CVs.py:45 | `glue.join(parts)`, the inverse in SplitJoin |
| PyBuiltins.Concat | Scripts/linkedinObjects.py:89-92 | `"".join(parts)`, which a loop of `text += part` also builds; ConcatSplit and ConcatAppend relate it to Split and to list concatenation |
| PyBuiltins.Split | Scripts/linkedinObjects.py:81 | `split` always yields at least one piece |
| PyBuiltins.RemoveAll | Scripts/linkedinObjects.py:87 | `replace(target, "")` never lengthens the string |
| PyBuiltins.ContainsAt | Scripts/linkedinObjects.py:75 | the substring test holds exactly when the substring starts at some position |
| PyBuiltins.SplitJoin | Scripts/CVs.py:45 | joining the pieces of a split with the separator gives back the string |
| PyBuiltins.SplitCount | Scripts/CVs.py:45 | a split has one more piece than there are separators |
| PyBuiltins.SplitPiecesFree | Scripts/CVs.py:142 | no piece of a split contains the separator |
| PyBuiltins.SplitFirstPiece | Scripts/linkedinObjects.py:125-126 | the first piece is the text before the first separator, or the whole text when there is none |
| PyBuiltins.SplitTail | Scripts/linkedinObjects.py:129-131 | the pieces after the first are the split of the text after the first separator |
| PyBuiltins.SplitHasSecond | Scripts/linkedinObjects.py:83 | `split(sep)[1]` exists exactly when the separator occurs |
| PyBuiltins.ConcatSplit | Scripts/CVs.py:142-146 | concatenating the pieces of a split gives the string with every separator removed |
| PyBuiltins.ConcatAppend | Scripts/linkedinObjects.py:90-92 | `"".join` distributes over list concatenation |
| PyBuiltins.RemoveAbsent | Scripts/linkedinObjects.py:87 | `replace` leaves a string without the target unchanged |
| PyBuiltins.RemoveLeading | Scripts/linkedinObjects.py:86-87 | a target that occurs only as the prefix is removed as exactly that prefix |
| PyBuiltins.StripInfix | Scripts/linkedinObjects.py:82-83 | `strip` keeps an infix of the text that starts where the leading whitespace ends |
| PyBuiltins.StripBorders | Scripts/linkedinObjects.py:82-83 | everything `strip` removes, before and after that infix, is whitespace |
| PyBuiltins.StripEnds | Scripts/linkedinObjects.py:82-83 | a non-empty stripped text starts and ends with a non-space character |
| PyBuiltins.StripEmpty | Scripts/linkedinObjects.py:147 | a line strips to `''` exactly when it is all whitespace |
| PyBuiltins.StripIdempotent | Scripts/linkedinObjects.py:202 | stripping twice is the same as stripping once |
| CVs.NewEducation | Scripts/CVs.py:39-45 | the other fields are stored as given; the extracurriculars list has one item per comma plus one, no item holds a comma, and joining the list with "," gives the string back |
| CVs.NewParagraph | Scripts/CVs.py:105-107 | the paragraph shows exactly its text in its style, and it has no run exactly when the text is empty |
| CVs.SectionHeading | Scripts/CVs.py:90-93 | the heading paragraph: its only run is the text in bold 12pt |
| CVs.FirstPageHeader | Scripts/CVs.py:104-113 | the header: the name centered in bold 28pt, then the centered contact placeholder |
| CVs.OpenDateRange | Scripts/CVs.py:133 | the dates of an experience or a project: the stripped start, an en dash, then "Present" when the end is exactly `''` and otherwise the stripped end; DateRanges states it |
| CVs.ClosedDateRange | Scripts/CVs.py:168 | the dates of an education: both stripped around the en dash, never "Present" |
| CVs.ExperienceHeaderLine | Scripts/CVs.py:122-137 | the bold stripped title, the italic " - company, location", a right tab stop at the tab position and the tabbed italic dates |
| CVs.EducationHeaderLine | Scripts/CVs.py:157-172 | the bold stripped institution, the italic " - location", the right tab stop and the tabbed italic dates |
| CVs.ProjectHeaderLine | Scripts/CVs.py:193-204 | the bold stripped title, the right tab stop and the tabbed italic dates |
| CVs.BulletTexts | Scripts/CVs.py:142-145 | the fragments between bullet characters, except those exactly `''`; BulletTextsSpec states them |
| CVs.DescriptionBullets | Scripts/CVs.py:141-148 | one ListBullet2 paragraph per bullet text, the last with 2pt of space after; DescriptionBulletsShape states it |
| CVs.ExperienceBlock | Scripts/CVs.py:121-148 | one experience: its header line, then its description bullets |
| CVs.ExtracurricularsPart | Scripts/CVs.py:180-184 | the "Extracurriculars" line and one stripped bullet per item, or nothing for an empty list |
| CVs.EducationBlock | Scripts/CVs.py:157-184 | one education: its header line, the stripped degree, then its extracurriculars part |
| CVs.ProjectBlock | Scripts/CVs.py:192-215 | one project: its header line, then its description bullets |
| CVs.ExperienceSection | Scripts/CVs.py:115-148 | nothing for no experiences; otherwise the "WORK EXPERIENCE" heading and one block per experience, in order |
| CVs.EducationSection | Scripts/CVs.py:150-184 | nothing for no educations; otherwise the "EDUCATION" heading and one block per education, in order |
| CVs.ProjectSection | Scripts/CVs.py:186-215 | nothing for no projects; otherwise the "PROJECTS" heading and one block per project, in order |
| CVs.Body | Scripts/CVs.py:79-85 | the body: a blank paragraph, education, a blank, projects, a blank, experience; the Body* lemmas state its parts |
| CVs.CurriculumVitae.constructor | Scripts/CVs.py:54-85 | 0.75in margins; the tab at page width minus both margins; the stored lists; for a non-empty name, the first-page header and the body in order education, projects, experience; for an empty name the build fails after adding a run-less name paragraph |
| CVs.CurriculumVitae.CreateBody | Scripts/CVs.py:79-85 | appends the blank, education, blank, projects, blank, experience layout |
| CVs.CurriculumVitae.AddSpace | Scripts/CVs.py:87-88 | appends one empty Normal paragraph |
| CVs.CurriculumVitae.AddSectionHeading | Scripts/CVs.py:90-93 | appends the heading as one bold 12pt run |
| CVs.CurriculumVitae.CreateHeader | Scripts/CVs.py:95-113 | replaces the header with the centered bold 28pt name and the centered contact line; fails exactly when the name is empty |
| CVs.CurriculumVitae.AddDescriptionBullets | Scripts/CVs.py:139-148 | appends one bullet per non-empty fragment between bullet characters; only the last gets 2pt of space after |
| CVs.CurriculumVitae.AddExperienceBlock | Scripts/CVs.py:121-148 | appends the bold title, the italic " - company, location", the tabbed italic dates, then the description bullets |
| CVs.CurriculumVitae.CreateExperiences | Scripts/CVs.py:115-118 | adds nothing for no experiences; otherwise the "WORK EXPERIENCE" heading, then the blocks |
| CVs.CurriculumVitae.AddExperienceBlocks | Scripts/CVs.py:120-148 | appends one block per experience, in list order |
| CVs.CurriculumVitae.AddEducationBlock | Scripts/CVs.py:156-184 | appends the header line, the stripped degree and, for a non-empty list, the italic "Extracurriculars" line and its bullets |
| CVs.CurriculumVitae.AddExtracurricularBullets | Scripts/CVs.py:183-184 | appends one stripped bullet per item, in order |
| CVs.CurriculumVitae.CreateEducation | Scripts/CVs.py:150-153 | adds nothing for no educations; otherwise the "EDUCATION" heading, then the blocks |
| CVs.CurriculumVitae.AddEducationBlocks | Scripts/CVs.py:155-184 | appends one block per education, in list order |
| CVs.CurriculumVitae.AddProjectBlock | Scripts/CVs.py:192-215 | appends the bold title, the tabbed italic dates, then the description bullets |
| CVs.CurriculumVitae.CreateProjects | Scripts/CVs.py:186-189 | adds nothing for no projects; otherwise the "PROJECTS" heading, then the blocks |
| CVs.CurriculumVitae.AddProjectBlocks | Scripts/CVs.py:191-215 | appends one block per project, in list order |
| CVsLemmas.DateRanges | Scripts/CVs.py:133 | "Present" appears exactly for an end date equal to `''`; a whitespace-only end date gives an empty end; an education's range never says "Present" |
| CVsLemmas.NonEmptyMembers | Scripts/CVs.py:144-145 | the skip keeps exactly the fragments that are not `''` |
| CVsLemmas.ConcatNonEmpty | Scripts/CVs.py:144-145 | dropping the empty fragments loses no text |
| CVsLemmas.BulletTextsSpec | Scripts/CVs.py:142-146 | no bullet is empty or holds a bullet character; every non-empty fragment is a bullet; together the bullets spell the description without its bullet characters; there are at most one more than the bullet characters |
| CVsLemmas.BulletParagraphsAt | Scripts/CVs.py:146 | the k-th bullet paragraph is a ListBullet2 paragraph of the k-th text |
| CVsLemmas.DescriptionBulletsShape | Scripts/CVs.py:141-148 | one ListBullet2 paragraph per bullet text, in order; only the last has 2pt of space after it |
| CVsLemmas.ExperienceBlocksAppend | Scripts/CVs.py:120 | the experience blocks of two lists, one after the other, are the blocks of the joined list |
| CVsLemmas.EducationBlocksAppend | Scripts/CVs.py:155 | the same for educations |
| CVsLemmas.ProjectBlocksAppend | Scripts/CVs.py:191 | the same for projects |
| CVsLemmas.ExperienceSectionLayout | Scripts/CVs.py:115-148 | experience k's block comes after the heading and the blocks before it, and before the blocks after it |
| CVsLemmas.EducationSectionLayout | Scripts/CVs.py:150-184 | the same for educations |
| CVsLemmas.ProjectSectionLayout | Scripts/CVs.py:186-215 | the same for projects |
| CVsLemmas.SectionsPresence | Scripts/CVs.py:116-118 | a section is empty exactly when its list is, and a present section opens with its heading |
| CVsLemmas.BodyBlanks | Scripts/CVs.py:79-85 | the body has three blank separators, at fixed positions whatever the lists hold |
| CVsLemmas.BodyEducation | Scripts/CVs.py:80-82 | the education section fills the slice between the first and the second blank |
| CVsLemmas.BodyProjects | Scripts/CVs.py:82-84 | the projects section fills the slice between the second and the third blank |
| CVsLemmas.BodyExperience | Scripts/CVs.py:84-85 | the experience section fills the rest of the body after the third blank |
| CVsLemmas.BodyHeadings | Scripts/CVs.py:79-85 | each present section's heading sits right after its blank |
| CVsLemmas.BodyEmpty | Scripts/CVs.py:79-85 | with all three lists empty, the body is exactly three blank paragraphs |
| CVsLemmas.ExperienceBlockLength | Scripts/CVs.py:121-148 | one experience takes its header line plus one paragraph per bullet |
| CVsLemmas.ProjectBlockLength | Scripts/CVs.py:192-215 | one project takes its header line plus one paragraph per bullet |
| CVsLemmas.ExtracurricularsPartShape | Scripts/CVs.py:180-184 | for a non-empty list, the "Extracurriculars" line followed by one ListBullet2 bullet per item; nothing for an empty list |
| CVsLemmas.EducationBlockShape | Scripts/CVs.py:157-184 | an education's block is its header and degree lines, then for a non-empty list the "Extracurriculars" line third and one ListBullet2 bullet per item |
| CVsLemmas.ExperienceBlocksLength | Scripts/CVs.py:120-148 | each experience takes one header line plus one paragraph per bullet |
| CVsLemmas.EducationBlocksLength | Scripts/CVs.py:155-184 | each education takes a header, a degree line and, for a non-empty list, one line plus one per item |
| CVsLemmas.ProjectBlocksLength | Scripts/CVs.py:191-215 | each project takes one header line plus one paragraph per bullet |
| CVsLemmas.BodyParagraphCount | Scripts/CVs.py:79-85 | the body's paragraph count is fixed by the entries and their bullet counts |
| CVsLemmas.ConstructedEducationBlock | Scripts/CVs.py:175-184 | a constructed education always shows the "Extracurriculars" line, followed by one bullet per comma plus one |
| CVsLemmas.ExtracurricularBulletsAt | Scripts/CVs.py:183-184 | bullet k is item k, stripped, in ListBullet2 |
| LinkedinObjects.LoginOutcome | Scripts/linkedinObjects.py:287-295 | FAIL exactly for the login-submit URL, SUCCESS exactly for the feed URL, VERIFY for every other URL |
| LinkedinObjects.IsNoise | Scripts/linkedinObjects.py:75 | a span is skipped when its class holds `visually-hidden`, `white-space-pre` or `t-14` |
| LinkedinObjects.IsBold | Scripts/linkedinObjects.py:117 | a span is bold when its parent's class or its own holds `t-bold` |
| LinkedinObjects.KeptSpans | Scripts/linkedinObjects.py:73-76 | the spans that are not noise, in order; KeptSpansMembers states it |
| LinkedinObjects.KeptTexts | Scripts/linkedinObjects.py:72-77 | `actual_info`: the texts of the kept spans |
| LinkedinObjects.BoldCount | Scripts/linkedinObjects.py:112-119 | `num_bolds`: the number of kept spans that are bold |
| LinkedinObjects.EducationOf | Scripts/linkedinObjects.py:79-93 | the education parse, or IndexError; EducationFailure, EducationFields and EducationActivities state it |
| LinkedinObjects.BeforeDot | Scripts/linkedinObjects.py:125-126 | the stripped text before the first '·' of a line; BeforeDotSpec states it |
| LinkedinObjects.SingleRole | Scripts/linkedinObjects.py:121-137 | the single-role parse, or IndexError; SingleRoleFailure and SingleRoleFields state it |
| LinkedinObjects.GroupStep | Scripts/linkedinObjects.py:147-151 | a whitespace-only line closes the open group, even an empty one, and any other line joins it |
| LinkedinObjects.Grouped | Scripts/linkedinObjects.py:146-151 | the closed groups and the open group after a prefix of the lines |
| LinkedinObjects.Groups | Scripts/linkedinObjects.py:144-153 | the groups, with the open group kept last when it is not empty; GroupsUnbroken and GroupsFirstBreak determine it |
| LinkedinObjects.RoleOf | Scripts/linkedinObjects.py:158-166 | the role of one non-empty group, or IndexError; RoleOfSpec states it |
| LinkedinObjects.AfterRole | Scripts/linkedinObjects.py:156-167 | one pass of the role loop: an empty group is skipped, a role is appended, or it raises and the loop stops |
| LinkedinObjects.Roles | Scripts/linkedinObjects.py:155-167 | the role loop over the groups; RolesOrder determines it |
| LinkedinObjects.MultiRole | Scripts/linkedinObjects.py:138-167 | the multi-role parse: employer, location and the roles of the groups of the lines from index 3 on |
| LinkedinObjects.ExperienceEntry | Scripts/linkedinObjects.py:121-167 | the branch on `num_bolds`; ExperienceEntryShape states it |
| LinkedinObjects.ProjectDescription | Scripts/linkedinObjects.py:200-208 | the description built from the lines from index 2 on; SkillsFirst, SkillsTruncates, ProjectDescriptionAppend and ProjectDescriptionLine state it |
| LinkedinObjects.ProjectOf | Scripts/linkedinObjects.py:193-211 | the project parse, or IndexError; ProjectFailure and ProjectFields state it |
| LinkedinObjects.Successes | Scripts/linkedinObjects.py:69-97 | a pass that catches every exception appends the value of each entry that parses, in entry order; SuccessesAppend and SuccessesMembers state it |
| LinkedinObjects.ParsedEducations | Scripts/linkedinObjects.py:69-97 | what the education pass appends |
| LinkedinObjects.ParsedProjects | Scripts/linkedinObjects.py:183-214 | what the projects pass appends |
| LinkedinObjects.UntilAbort | Scripts/linkedinObjects.py:108-172 | a pass whose exceptions escape: entries in order until one raises; UntilAbortSticks and UntilAbortPrefix state it |
| LinkedinObjects.ExperiencePass | Scripts/linkedinObjects.py:108-172 | what the experience pass appends, and whether it raised |
| LinkedinObjects.CollectTexts | Scripts/linkedinObjects.py:72-77 | `actual_info` is the texts of the spans that are not noise, in order |
| LinkedinObjects.CollectExperienceTexts | Scripts/linkedinObjects.py:111-119 | the kept texts, and `num_bolds` as the number of kept spans bold through their own class or their parent's |
| LinkedinObjects.ParseEducation | Scripts/linkedinObjects.py:79-93 | the loop computes the education parse, IndexError included |
| LinkedinObjects.JoinFrom | Scripts/linkedinObjects.py:89-92 | the description is the texts from index i on, concatenated |
| LinkedinObjects.GroupLines | Scripts/linkedinObjects.py:144-153 | the loop computes the groups. Every whitespace-only line closes the open group, even an empty one, and the last group is kept when it is not empty. GroupsUnbroken and GroupsFirstBreak state where the groups break |
| LinkedinObjects.RolesAbortSticks | Scripts/linkedinObjects.py:155-167 | once a role has raised, the later groups change nothing |
| LinkedinObjects.ParseProject | Scripts/linkedinObjects.py:193-211 | the body computes the project parse, IndexError included |
| LinkedinObjects.CollectDescription | Scripts/linkedinObjects.py:200-208 | the loop computes the project description |
| LinkedinObjects.UntilAbortSticks | Scripts/linkedinObjects.py:108-172 | once an entry has raised, the later entries change nothing |
| LinkedinObjects.LinkedinProfile.constructor | Scripts/linkedinObjects.py:22-28 | the URL is the profile prefix plus the slug; name and about are empty, the lists empty |
| LinkedinObjects.LinkedinProfile.CreateCv | Scripts/linkedinObjects.py:30-31 | builds the résumé of the profile's name and lists |
| LinkedinObjects.LinkedinProfile.SetAbout | Scripts/linkedinObjects.py:33-34 | sets about, changes nothing else |
| LinkedinObjects.LinkedinProfile.SetName | Scripts/linkedinObjects.py:36-37 | sets the name, changes nothing else |
| LinkedinObjects.LinkedinProfile.AddProject | Scripts/linkedinObjects.py:39-40 | appends to projects, changes nothing else |
| LinkedinObjects.LinkedinProfile.AddEducation | Scripts/linkedinObjects.py:42-43 | appends to educations, changes nothing else |
| LinkedinObjects.LinkedinProfile.AddExperience | Scripts/linkedinObjects.py:45-46 | appends to experiences, changes nothing else |
| LinkedinObjects.GetEducation | Scripts/linkedinObjects.py:69-97 | appends, in entry order, the education of each entry that parses |
| LinkedinObjects.GetProjects | Scripts/linkedinObjects.py:183-214 | appends, in entry order, the project of each entry that parses |
| LinkedinObjects.AddRoles | Scripts/linkedinObjects.py:155-167 | appends the roles of the groups in order, up to the first role that raises, and reports that failure. By RolesOrder, role k is the parse of the k-th non-empty group |
| LinkedinObjects.AddRole | Scripts/linkedinObjects.py:156-167 | an empty group adds nothing; otherwise one role is appended, or the role raises |
| LinkedinObjects.AddExperienceEntry | Scripts/linkedinObjects.py:121-167 | dispatches on the bold count to the single-role or multi-role parse |
| LinkedinObjects.GetExperience | Scripts/linkedinObjects.py:108-172 | appends each entry's roles in order until an entry raises, and reports whether one did |
| LinkedinObjects.ScrapeExperienceEntry | Scripts/linkedinObjects.py:109-169 | one entry: its kept texts and bold count, then its roles |
| LinkedinObjects.ScrapeProfile | Scripts/linkedinObjects.py:216-270 | sets the name; sets about to the third about span when there are more than two; runs experience, then projects, then education for the sections present; an experience failure leaves projects and educations untouched |
| LinkedinLemmas.KeptSpansMembers | Scripts/linkedinObjects.py:73-77 | the kept spans are exactly the spans that are not noise |
| LinkedinLemmas.KeptSpansAppend | Scripts/linkedinObjects.py:73-77 | the filter keeps order: filtering a concatenation concatenates the filtered parts |
| LinkedinLemmas.KeptTextsAt | Scripts/linkedinObjects.py:77 | `actual_info[k]` is the text of the k-th kept span |
| LinkedinLemmas.TextsAt | Scripts/linkedinObjects.py:77 | the k-th text is the k-th span's text |
| LinkedinLemmas.BoldCountBounds | Scripts/linkedinObjects.py:112-119 | `num_bolds` is at most the number of kept spans, and 0 exactly when none of them is bold |
| LinkedinLemmas.DateFields | Scripts/linkedinObjects.py:81-83 | the start date is the text before the first '-' and the end date the text up to the next '-' |
| LinkedinLemmas.BeforeDotSpec | Scripts/linkedinObjects.py:125-126 | the company or location is the stripped text before the first '·' |
| LinkedinLemmas.EducationFailure | Scripts/linkedinObjects.py:79-86 | an education entry raises exactly when it has fewer than four texts or its third has no '-' |
| LinkedinLemmas.EducationFields | Scripts/linkedinObjects.py:79-93 | institution, degree, "[LOCATION]", the dates, and the description from the texts after the activities line |
| LinkedinLemmas.EducationActivities | Scripts/linkedinObjects.py:84-88 | without an activities line the list is [""]; with one, the list joins back to the stripped line without the marker |
| LinkedinLemmas.SingleRoleFailure | Scripts/linkedinObjects.py:121-135 | a single-role entry raises exactly when it has fewer than five texts or there is no '-' before the '·' of its third text |
| LinkedinLemmas.SingleRoleFields | Scripts/linkedinObjects.py:122-137 | title and description verbatim; company and location before '·', stripped; dates around the first '-' |
| LinkedinLemmas.RoleOfSpec | Scripts/linkedinObjects.py:158-166 | a role raises exactly when its group has one line or there is no '-' before its '·'; otherwise the stripped title and the optional third line |
| LinkedinLemmas.ExperienceEntryShape | Scripts/linkedinObjects.py:121-167 | no bold adds nothing; one bold adds exactly one experience or raises; more bolds are the multi-role parse |
| LinkedinLemmas.GroupedLines | Scripts/linkedinObjects.py:146-151 | the grouping loop's closed and open groups together hold the non-blank lines so far, in order |
| LinkedinLemmas.GroupedNonBlank | Scripts/linkedinObjects.py:146-151 | neither the closed groups nor the open one hold a whitespace-only line |
| LinkedinLemmas.GroupsSpec | Scripts/linkedinObjects.py:144-153 | the groups, read in order, are exactly the non-blank lines, the trailing group included |
| LinkedinLemmas.GroupsNonBlank | Scripts/linkedinObjects.py:144-153 | no group holds a whitespace-only line |
| LinkedinLemmas.GroupedUnbroken | Scripts/linkedinObjects.py:146-151 | lines with no whitespace-only line all join the open group, and no group is closed |
| LinkedinLemmas.GroupedAfterBreak | Scripts/linkedinObjects.py:146-151 | a whitespace-only line closes the open group, even an empty one, and the lines after it are grouped from scratch |
| LinkedinLemmas.GroupsUnbroken | Scripts/linkedinObjects.py:144-153 | lines with no whitespace-only line form one group, or no group when there are no lines |
| LinkedinLemmas.GroupsFirstBreak | Scripts/linkedinObjects.py:144-153 | the lines before the first whitespace-only line form the first group, which is empty when that line comes first; the rest is grouped on its own. With GroupsUnbroken this fixes the groups of any lines: adjacent non-blank lines share a group, and each blank line ends one |
| LinkedinLemmas.GroupsExample | Scripts/linkedinObjects.py:144-153 | the lines "a", "b", " ", "c" give the groups ["a", "b"] and ["c"] |
| LinkedinLemmas.RolesOrder | Scripts/linkedinObjects.py:155-167 | role k is the parse of the k-th non-empty group. When a role raises, the loop has stopped at the first non-empty group whose parse raises, with the roles before it appended. Otherwise there is one role per non-empty group |
| LinkedinLemmas.RolesShared | Scripts/linkedinObjects.py:155-167 | every role has the employer and location of its entry |
| LinkedinLemmas.RolesCount | Scripts/linkedinObjects.py:155-167 | at most one role per non-empty group, and exactly one per non-empty group unless the loop raised |
| LinkedinLemmas.RolesAbortFrom | Scripts/linkedinObjects.py:155-167 | a non-empty group whose role raises makes the loop raise |
| LinkedinLemmas.RolesAbortWitness | Scripts/linkedinObjects.py:155-167 | a loop that raised met a non-empty group whose role raises |
| LinkedinLemmas.RolesAbort | Scripts/linkedinObjects.py:155-167 | the role loop raises exactly when some non-empty group fails |
| LinkedinLemmas.MultiRoleSpec | Scripts/linkedinObjects.py:138-167 | fewer than three texts raise at once; otherwise every role has the first text as employer and the third text's part before '·' as location |
| LinkedinLemmas.ProjectFailure | Scripts/linkedinObjects.py:193-198 | a project entry raises exactly when it has fewer than two texts or its second has no '-' |
| LinkedinLemmas.ProjectFields | Scripts/linkedinObjects.py:193-211 | stripped title, dates around the first '-', and the description of the texts from the third on |
| LinkedinLemmas.SkillsFirst | Scripts/linkedinObjects.py:205-206 | a first line that strips to a "Skills:" line leaves the description empty |
| LinkedinLemmas.SkillsTruncates | Scripts/linkedinObjects.py:205-206 | nothing from the first "Skills:" line on reaches the description |
| LinkedinLemmas.ProjectDescriptionAppend | Scripts/linkedinObjects.py:201-208 | before any "Skills:" line, the description is built line by line |
| LinkedinLemmas.ProjectDescriptionLine | Scripts/linkedinObjects.py:202-208 | a blank or "Associated with" line adds nothing; any other line adds its stripped text |
| LinkedinLemmas.SuccessesAppend | Scripts/linkedinObjects.py:69-97 | a pass that skips failures appends in entry order |
| LinkedinLemmas.SuccessesMembers | Scripts/linkedinObjects.py:69-97 | such a pass appends at most one value per entry, exactly the values of the entries that parse |
| LinkedinLemmas.ParsedEducationsSpec | Scripts/linkedinObjects.py:69-97 | the education pass appends in entry order, exactly the educations of the entries that parse |
| LinkedinLemmas.ParsedProjectsSpec | Scripts/linkedinObjects.py:183-214 | the projects pass appends in entry order, exactly the projects of the entries that parse |
| LinkedinLemmas.UntilAbortPrefix | Scripts/linkedinObjects.py:108-172 | no rollback: what was appended after k entries is a prefix of the final list, and an abort freezes the result |
| LinkedinLemmas.ExperiencePassPrefix | Scripts/linkedinObjects.py:108-172 | the experience pass keeps every role appended before a failure, and a failure ends the pass |

## Left out

- The browser (Selenium) and the DOM. An entry is given as its span texts, classes and parent classes. A page is given as its URL, or as a `ProfilePage` value holding the name, the about spans and the entries of each section present. `sleep`, navigation and the HTTP traffic are not modelled.
- `attempt_login` typing the credentials and clicking: only the URL classification is modelled.
- `LinkedinInstance` as an object: its parsing methods become module-level methods that take the profile and the entries, because the driver is their only state.
- The about-section lookup raising `NoSuchElementException` when there is no `#about` element. In the model the lookup succeeds, and it takes the third span when there are more than two.
- Section detection and the `artdeco-card.pb3` container lookup: a section is either present, with its list of entries, or absent.
- `NoSuchElementException` from the parent lookup in the experience pass, which is caught and skips the rest of that entry. It is a browser failure, not a parse failure.
- `get_attribute('class')` returning `None`, and exceptions other than `IndexError` (such as `TypeError`).
- `scrape_profile` returning at once for a `None` profile: Dafny references are non-null here.
- `print` and the logging of caught exceptions.
- `set_style_to_defaults` (Times New Roman 10pt, zero spacing) and the python-docx document internals: the model keeps paragraphs as records with runs, style, alignment, tab and space after. `save` is not modelled, and neither is `UI.py`.
- The `None` defaults of the `CurriculumVitae` lists: the constructor takes the lists, and an absent one is the empty sequence.
- `RIGHT_TAB_INCHES` is unused in the code, which computes the tab from the page width. The page width is a constructor parameter.
- CVs.CurriculumVitae.AddSectionHeading: requires a non-empty heading. The code would raise `IndexError` for an empty one, but it is only ever called with the three fixed headings.
- Integer widths: lengths are unbounded integers in EMU, which python-docx also uses.
