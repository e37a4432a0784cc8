/** The scraping side (Scripts/linkedinObjects.py): the login outcome, the
    profile record the scraper fills, and the positional parsers that turn
    the spans of one LinkedIn "details" entry into an Education, one or more
    Experiences, or a Project. The browser is not modelled: an entry arrives
    as the list of its <span> elements, each with its text, its class
    attribute and its parent's class attribute, and the post-login page is
    its URL. */
module LinkedinObjects {
  import opened PyBuiltins
  import opened CVs
  import opened Seqs

  // ---------------------------------------------------------------------
  // Login

  datatype LoginStatus = Success | Fail | Verify

  const LoginSubmitUrl: string := "https://www.linkedin.com/checkpoint/lg/login-submit"
  const FeedUrl: string := "https://www.linkedin.com/feed/"

  /** attempt_login's verdict from the URL the browser shows after the
      sign-in button was clicked: the login-submit page means the
      credentials were refused, the feed means success, and anything else is
      a verification challenge. */
  function LoginOutcome(currentUrl: string): (status: LoginStatus)
    ensures status == Fail <==> currentUrl == LoginSubmitUrl
    ensures status == Success <==> currentUrl == FeedUrl
    ensures status == Verify <==> currentUrl != LoginSubmitUrl && currentUrl != FeedUrl
  {
    if currentUrl == LoginSubmitUrl then Fail
    else if currentUrl != FeedUrl then Verify
    else Success
  }

  // ---------------------------------------------------------------------
  // Spans

  /** One <span> of an entry: its text, its class attribute and the class
      attribute of its parent element. */
  datatype Span = Span(text: string, classes: string, parentClasses: string)

  /** Screen-reader copies, separators and small grey text: the spans whose
      class attribute holds one of these substrings are skipped. */
  predicate IsNoise(span: Span)
  {
    || Contains(span.classes, "visually-hidden")
    || Contains(span.classes, "white-space-pre")
    || Contains(span.classes, "t-14")
  }

  /** A span shown in bold, through its own class or its parent's. */
  predicate IsBold(span: Span)
  {
    Contains(span.parentClasses, "t-bold") || Contains(span.classes, "t-bold")
  }

  /** The spans that are not noise, in their order. */
  function KeptSpans(spans: seq<Span>): seq<Span>
  {
    if spans == [] then []
    else
      var last := spans[|spans| - 1];
      KeptSpans(spans[..|spans| - 1]) + (if IsNoise(last) then [] else [last])
  }

  function Texts(spans: seq<Span>): seq<string>
  {
    if spans == [] then [] else Texts(spans[..|spans| - 1]) + [spans[|spans| - 1].text]
  }

  /** `actual_info`: the texts of the kept spans. */
  function KeptTexts(spans: seq<Span>): seq<string>
  {
    Texts(KeptSpans(spans))
  }

  /** `num_bolds`: how many kept spans are bold. */
  function BoldCount(spans: seq<Span>): nat
  {
    if spans == [] then 0
    else
      var last := spans[|spans| - 1];
      BoldCount(spans[..|spans| - 1]) + (if !IsNoise(last) && IsBold(last) then 1 else 0)
  }

  /** The span loop of the education and project passes. */
  method CollectTexts(spans: seq<Span>) returns (info: seq<string>)
    ensures info == KeptTexts(spans)
  {
    info := [];
    for i := 0 to |spans|
      invariant info == KeptTexts(spans[..i])
    {
      KeptStep(spans, i);
      if IsNoise(spans[i]) {
        continue;
      }
      info := info + [spans[i].text];
    }
    TakeAll(spans);
  }

  /** The span loop of the experience pass, which also counts bold spans. */
  method CollectExperienceTexts(spans: seq<Span>) returns (info: seq<string>, numBolds: nat)
    ensures info == KeptTexts(spans)
    ensures numBolds == BoldCount(spans)
  {
    info, numBolds := [], 0;
    for i := 0 to |spans|
      invariant info == KeptTexts(spans[..i])
      invariant numBolds == BoldCount(spans[..i])
    {
      KeptStep(spans, i);
      if IsNoise(spans[i]) {
        continue;
      }
      if IsBold(spans[i]) {
        numBolds := numBolds + 1;
      }
      info := info + [spans[i].text];
    }
    TakeAll(spans);
  }

  lemma KeptStep(spans: seq<Span>, i: nat)
    requires i < |spans|
    ensures KeptTexts(spans[..i + 1])
         == KeptTexts(spans[..i]) + (if IsNoise(spans[i]) then [] else [spans[i].text])
    ensures BoldCount(spans[..i + 1])
         == BoldCount(spans[..i]) + (if !IsNoise(spans[i]) && IsBold(spans[i]) then 1 else 0)
  {
    var prefix := spans[..i + 1];
    assert prefix[..i] == spans[..i];
    var kept := KeptSpans(spans[..i]);
    if !IsNoise(spans[i]) {
      assert (kept + [spans[i]])[..|kept|] == kept;
    } else {
      assert kept + [] == kept;
    }
  }

  // ---------------------------------------------------------------------
  // Education

  const UnknownLocation: string := "[LOCATION]"
  const ActivitiesPrefix: string := "Activities and societies:"

  /** The parse of one education entry: institution, degree, the two dates
      on either side of the first '-' of the third text, the extracurriculars
      when the fourth text is the "Activities and societies:" line, and the
      rest concatenated as the description. Reading a text or a date piece
      that is not there raises IndexError. */
  function EducationOf(info: seq<string>): Result<Education>
  {
    if |info| < 3 then IndexError
    else
      var dates := Split(info[2], '-');
      if |dates| < 2 || |info| < 4 then IndexError
      else
        var hasActivities := StartsWith(info[3], ActivitiesPrefix);
        var ecs := if hasActivities then Strip(RemoveAll(info[3], ActivitiesPrefix)) else "";
        var first := if hasActivities then 4 else 3;
        Ok(NewEducation(info[0], UnknownLocation, info[1], ecs, Concat(info[first..]),
                        Strip(dates[0]), Strip(dates[1])))
  }

  /** The body of the education pass's try block, up to the constructor. */
  method ParseEducation(info: seq<string>) returns (r: Result<Education>)
    ensures r == EducationOf(info)
  {
    if |info| < 3 {
      return IndexError;
    }
    var dates := Split(info[2], '-');
    if |dates| < 2 || |info| < 4 {
      return IndexError;
    }
    var ecs := "";
    var i := 3;
    if StartsWith(info[3], ActivitiesPrefix) {
      ecs := Strip(RemoveAll(info[3], ActivitiesPrefix));
      i := i + 1;
    }
    var desc := JoinFrom(info, i);
    r := Ok(NewEducation(info[0], UnknownLocation, info[1], ecs, desc, Strip(dates[0]), Strip(dates[1])));
  }

  /** The `while i < len(actual_info)` loop: the texts from index `i` on,
      concatenated. */
  method JoinFrom(info: seq<string>, i: nat) returns (desc: string)
    requires i <= |info|
    ensures desc == Concat(info[i..])
  {
    desc := "";
    var j := i;
    while j < |info|
      invariant i <= j <= |info|
      invariant desc == Concat(info[i..j])
    {
      ConcatStep(info, i, j);
      desc := desc + info[j];
      j := j + 1;
    }
    assert info[i..j] == info[i..];
  }

  lemma ConcatStep(info: seq<string>, first: nat, i: nat)
    requires first <= i < |info|
    ensures Concat(info[first..i + 1]) == Concat(info[first..i]) + info[i]
  {
    assert info[first..i + 1] == info[first..i] + [info[i]];
    ConcatAppend(info[first..i], [info[i]]);
    assert Concat([info[i]]) == info[i] + Concat([]);
  }

  // ---------------------------------------------------------------------
  // Experience

  const MiddleDot: char := '\U{00B7}'

  /** The text before the first '·' of a line, stripped. */
  function BeforeDot(line: string): string
  {
    Strip(Split(line, MiddleDot)[0])
  }

  /** A single-role entry (one bold span): title, "company · type", "dates ·
      duration", "location · mode", description. The title and description
      are kept verbatim. */
  function SingleRole(info: seq<string>): Result<Experience>
  {
    if |info| < 3 then IndexError
    else
      var dates := Split(Split(info[2], MiddleDot)[0], '-');
      if |dates| < 2 || |info| < 5 then IndexError
      else Ok(Experience(info[0], info[4], BeforeDot(info[1]), BeforeDot(info[3]),
                         Strip(dates[0]), Strip(dates[1])))
  }

  /** The grouping loop's state: the groups closed so far and the open one. */
  datatype Grouping = Grouping(jobs: seq<seq<string>>, current: seq<string>)

  /** A whitespace-only line closes the open group, even an empty one;
      any other line joins it. */
  function GroupStep(g: Grouping, line: string): Grouping
  {
    if Strip(line) == "" then Grouping(g.jobs + [g.current], []) else Grouping(g.jobs, g.current + [line])
  }

  function Grouped(lines: seq<string>): Grouping
  {
    if lines == [] then Grouping([], [])
    else GroupStep(Grouped(lines[..|lines| - 1]), lines[|lines| - 1])
  }

  /** The roles of a multi-role entry: the groups of lines between blank
      lines, the last open group kept when it is not empty. */
  function Groups(lines: seq<string>): seq<seq<string>>
  {
    var g := Grouped(lines);
    if g.current != [] then g.jobs + [g.current] else g.jobs
  }

  method GroupLines(lines: seq<string>) returns (jobs: seq<seq<string>>)
    ensures jobs == Groups(lines)
  {
    jobs := [];
    var currentJob := [];
    for i := 0 to |lines|
      invariant Grouping(jobs, currentJob) == Grouped(lines[..i])
    {
      TakeTake(lines, i);
      if Strip(lines[i]) == "" {
        jobs := jobs + [currentJob];
        currentJob := [];
      } else {
        currentJob := currentJob + [lines[i]];
      }
    }
    TakeAll(lines);
    if currentJob != [] {
      jobs := jobs + [currentJob];
    }
  }

  /** One role of a multi-role entry: title, "dates · duration" and an
      optional description line. */
  function RoleOf(job: seq<string>, company: string, location: string): Result<Experience>
    requires job != []
  {
    if |job| < 2 then IndexError
    else
      var dates := Split(Split(job[1], MiddleDot)[0], '-');
      if |dates| < 2 then IndexError
      else Ok(Experience(Strip(job[0]), if |job| > 2 then job[2] else "", company, location,
                         Strip(dates[0]), Strip(dates[1])))
  }

  /** What parsing an experience entry does to the profile: the experiences
      it appended, and whether an exception escaped the pass. */
  datatype EntryOutcome = EntryOutcome(added: seq<Experience>, aborted: bool)

  /** One step of the role loop: an empty group is skipped, a role is
      appended, and a role that fails stops everything, the roles before it
      staying appended. */
  function AfterRole(before: EntryOutcome, job: seq<string>, company: string, location: string): EntryOutcome
  {
    if before.aborted || job == [] then before
    else match RoleOf(job, company, location)
      case Ok(e) => EntryOutcome(before.added + [e], false)
      case IndexError => EntryOutcome(before.added, true)
  }

  /** The role loop over the groups of a multi-role entry. */
  function Roles(jobs: seq<seq<string>>, company: string, location: string): EntryOutcome
  {
    if jobs == [] then EntryOutcome([], false)
    else AfterRole(Roles(jobs[..|jobs| - 1], company, location), jobs[|jobs| - 1], company, location)
  }

  /** A multi-role entry: employer, "type · duration", "location · mode",
      then the lines of the roles. */
  function MultiRole(info: seq<string>): EntryOutcome
  {
    if |info| < 3 then EntryOutcome([], true)
    else Roles(Groups(info[3..]), info[0], BeforeDot(info[2]))
  }

  /** One experience entry, switched on its number of bold spans: none adds
      nothing, one is a single role, more are several roles at one employer. */
  function ExperienceEntry(info: seq<string>, numBolds: nat): EntryOutcome
  {
    if numBolds == 1 then
      match SingleRole(info)
      case Ok(e) => EntryOutcome([e], false)
      case IndexError => EntryOutcome([], true)
    else if numBolds > 1 then MultiRole(info)
    else EntryOutcome([], false)
  }

  lemma RolesStep(jobs: seq<seq<string>>, i: nat, company: string, location: string)
    requires i < |jobs|
    ensures Roles(jobs[..i + 1], company, location)
         == AfterRole(Roles(jobs[..i], company, location), jobs[i], company, location)
  {
    TakeTake(jobs, i);
  }

  /** A step from a state that has not failed adds what the step alone adds. */
  lemma AfterRoleShift(before: EntryOutcome, job: seq<string>, company: string, location: string)
    requires !before.aborted
    ensures var alone := AfterRole(EntryOutcome([], false), job, company, location);
      AfterRole(before, job, company, location) == EntryOutcome(before.added + alone.added, alone.aborted)
  {
    if job != [] && RoleOf(job, company, location).Ok? {
      AppendNil([RoleOf(job, company, location).value]);
    } else {
      AppendNil(before.added);
    }
  }

  /** Once a role has failed, the later groups change nothing. */
  lemma {:induction false} RolesAbortSticks(jobs: seq<seq<string>>, k: nat, company: string, location: string)
    requires k <= |jobs|
    requires Roles(jobs[..k], company, location).aborted
    ensures Roles(jobs, company, location) == Roles(jobs[..k], company, location)
    decreases |jobs| - k
  {
    if k == |jobs| {
      assert jobs[..k] == jobs;
    } else {
      RolesStep(jobs, k, company, location);
      RolesAbortSticks(jobs, k + 1, company, location);
    }
  }

  // ---------------------------------------------------------------------
  // Projects

  const AssociatedPrefix: string := "Associated with"
  const SkillsPrefix: string := "Skills:"

  /** The description of a project: its lines from the third on, each
      stripped, blank and "Associated with" lines skipped, up to the first
      "Skills:" line. */
  function ProjectDescription(lines: seq<string>): string
  {
    if lines == [] then ""
    else
      var line := Strip(lines[0]);
      if line == "" || StartsWith(line, AssociatedPrefix) then ProjectDescription(lines[1..])
      else if StartsWith(line, SkillsPrefix) then ""
      else line + ProjectDescription(lines[1..])
  }

  /** A project entry: stripped title, dates on either side of the first '-',
      and the description. */
  function ProjectOf(info: seq<string>): Result<Project>
  {
    if |info| < 2 then IndexError
    else
      var dates := Split(info[1], '-');
      if |dates| < 2 then IndexError
      else Ok(Project(Strip(info[0]), ProjectDescription(info[2..]), Strip(dates[0]), Strip(dates[1])))
  }

  method ParseProject(info: seq<string>) returns (r: Result<Project>)
    ensures r == ProjectOf(info)
  {
    if |info| < 2 {
      return IndexError;
    }
    var title := Strip(info[0]);
    var dates := Split(info[1], '-');
    if |dates| < 2 {
      return IndexError;
    }
    var startDate, endDate := Strip(dates[0]), Strip(dates[1]);
    var description := CollectDescription(info[2..]);
    r := Ok(Project(title, description, startDate, endDate));
  }

  /** The description loop of the project pass. */
  method CollectDescription(lines: seq<string>) returns (description: string)
    ensures description == ProjectDescription(lines)
  {
    description := "";
    for i := 0 to |lines|
      invariant description + ProjectDescription(lines[i..]) == ProjectDescription(lines)
    {
      assert lines[i..][1..] == lines[i + 1..];
      var line := Strip(lines[i]);
      if line == "" || StartsWith(line, AssociatedPrefix) {
        continue;
      }
      if StartsWith(line, SkillsPrefix) {
        break;
      } else {
        description := description + line;
      }
    }
  }

  // ---------------------------------------------------------------------
  // The passes over a section's entries

  /** What a pass that catches every exception appends: the value of each
      entry that parses, in entry order; an entry that raises is skipped. */
  function Successes<T>(entries: seq<seq<Span>>, parse: seq<Span> -> Result<T>): seq<T>
  {
    if entries == [] then []
    else
      Successes(entries[..|entries| - 1], parse)
      + match parse(entries[|entries| - 1])
        case Ok(v) => [v]
        case IndexError => []
  }

  /** The parse of one education entry from its spans. */
  function EducationEntry(entry: seq<Span>): Result<Education>
  {
    EducationOf(KeptTexts(entry))
  }

  /** The parse of one project entry from its spans. */
  function ProjectEntry(entry: seq<Span>): Result<Project>
  {
    ProjectOf(KeptTexts(entry))
  }

  /** What one experience entry does, from its spans. */
  function ExperienceEffect(entry: seq<Span>): EntryOutcome
  {
    ExperienceEntry(KeptTexts(entry), BoldCount(entry))
  }

  /** The educations the education pass appends. */
  function ParsedEducations(entries: seq<seq<Span>>): seq<Education>
  {
    Successes(entries, EducationEntry)
  }

  /** The projects the projects pass appends. */
  function ParsedProjects(entries: seq<seq<Span>>): seq<Project>
  {
    Successes(entries, ProjectEntry)
  }

  /** A pass whose exceptions are not caught: entries in order, each
      appending what it adds, until one raises; the entries after it are not
      read. */
  function UntilAbort(entries: seq<seq<Span>>, effect: seq<Span> -> EntryOutcome): EntryOutcome
  {
    if entries == [] then EntryOutcome([], false)
    else
      var before := UntilAbort(entries[..|entries| - 1], effect);
      if before.aborted then before
      else
        var here := effect(entries[|entries| - 1]);
        EntryOutcome(before.added + here.added, here.aborted)
  }

  /** The experience pass. */
  function ExperiencePass(entries: seq<seq<Span>>): EntryOutcome
  {
    UntilAbort(entries, ExperienceEffect)
  }

  lemma SuccessesStep<T>(entries: seq<seq<Span>>, i: nat, parse: seq<Span> -> Result<T>, start: seq<T>)
    requires i < |entries|
    ensures start + Successes(entries[..i + 1], parse)
         == (start + Successes(entries[..i], parse))
            + match parse(entries[i])
              case Ok(v) => [v]
              case IndexError => []
  {
    TakeTake(entries, i);
  }

  lemma UntilAbortStep(entries: seq<seq<Span>>, i: nat, effect: seq<Span> -> EntryOutcome, start: seq<Experience>)
    requires i < |entries|
    requires !UntilAbort(entries[..i], effect).aborted
    ensures var here := effect(entries[i]);
      && start + UntilAbort(entries[..i + 1], effect).added == (start + UntilAbort(entries[..i], effect).added) + here.added
      && UntilAbort(entries[..i + 1], effect).aborted == here.aborted
  {
    TakeTake(entries, i);
  }

  /** Once an entry has raised, the later entries change nothing. */
  lemma {:induction false} UntilAbortSticks(entries: seq<seq<Span>>, k: nat, effect: seq<Span> -> EntryOutcome)
    requires k <= |entries|
    requires UntilAbort(entries[..k], effect).aborted
    ensures UntilAbort(entries, effect) == UntilAbort(entries[..k], effect)
    decreases |entries| - k
  {
    if k == |entries| {
      assert entries[..k] == entries;
    } else {
      TakeTake(entries, k);
      UntilAbortSticks(entries, k + 1, effect);
    }
  }

  // ---------------------------------------------------------------------
  // The profile

  const ProfileUrlPrefix: string := "https://www.linkedin.com/in/"

  class LinkedinProfile {
    var profileUrl: string
    var name: string
    var about: string
    var projects: seq<Project>
    var educations: seq<Education>
    var experiences: seq<Experience>

    constructor(slug: string)
      ensures profileUrl == ProfileUrlPrefix + slug
      ensures name == "" && about == ""
      ensures projects == [] && educations == [] && experiences == []
    {
      profileUrl := ProfileUrlPrefix + slug;
      name, about := "", "";
      projects, educations, experiences := [], [], [];
    }

    /** The résumé of what was scraped, laid out on a page of the given
        width. */
    method CreateCv(pageWidth: int) returns (cv: CurriculumVitae)
      ensures fresh(cv)
      ensures cv.name == name && cv.experiences == experiences
      ensures cv.educations == educations && cv.projects == projects
      ensures cv.rightTabPosition == pageWidth - 2 * Margin
      ensures cv.failed <==> name == ""
      ensures !cv.failed ==> cv.header == FirstPageHeader(name)
      ensures !cv.failed ==> cv.body == Body(experiences, educations, projects, cv.rightTabPosition)
    {
      cv := new CurriculumVitae(name, experiences, educations, projects, pageWidth);
    }

    method SetAbout(text: string)
      modifies this`about
      ensures about == text
      ensures name == old(name) && profileUrl == old(profileUrl)
      ensures projects == old(projects) && educations == old(educations) && experiences == old(experiences)
    {
      about := text;
    }

    method SetName(text: string)
      modifies this`name
      ensures name == text
      ensures about == old(about) && profileUrl == old(profileUrl)
      ensures projects == old(projects) && educations == old(educations) && experiences == old(experiences)
    {
      name := text;
    }

    method AddProject(project: Project)
      modifies this`projects
      ensures projects == old(projects) + [project]
      ensures name == old(name) && about == old(about) && profileUrl == old(profileUrl)
      ensures educations == old(educations) && experiences == old(experiences)
    {
      projects := projects + [project];
    }

    method AddEducation(education: Education)
      modifies this`educations
      ensures educations == old(educations) + [education]
      ensures name == old(name) && about == old(about) && profileUrl == old(profileUrl)
      ensures projects == old(projects) && experiences == old(experiences)
    {
      educations := educations + [education];
    }

    method AddExperience(experience: Experience)
      modifies this`experiences
      ensures experiences == old(experiences) + [experience]
      ensures name == old(name) && about == old(about) && profileUrl == old(profileUrl)
      ensures projects == old(projects) && educations == old(educations)
    {
      experiences := experiences + [experience];
    }
  }

  // ---------------------------------------------------------------------
  // Filling the profile

  /** __get_education__ over the entries of the education details page. */
  method GetEducation(profile: LinkedinProfile, entries: seq<seq<Span>>)
    modifies profile`educations
    ensures profile.educations == old(profile.educations) + ParsedEducations(entries)
  {
    for i := 0 to |entries|
      invariant profile.educations == old(profile.educations) + ParsedEducations(entries[..i])
    {
      SuccessesStep(entries, i, EducationEntry, old(profile.educations));
      var info := CollectTexts(entries[i]);
      var r := ParseEducation(info);
      if r.Ok? {
        profile.AddEducation(r.value);
      }
    }
    TakeAll(entries);
  }

  /** __get_projects__ over the entries of the projects details page. */
  method GetProjects(profile: LinkedinProfile, entries: seq<seq<Span>>)
    modifies profile`projects
    ensures profile.projects == old(profile.projects) + ParsedProjects(entries)
  {
    for i := 0 to |entries|
      invariant profile.projects == old(profile.projects) + ParsedProjects(entries[..i])
    {
      SuccessesStep(entries, i, ProjectEntry, old(profile.projects));
      var info := CollectTexts(entries[i]);
      var r := ParseProject(info);
      if r.Ok? {
        profile.AddProject(r.value);
      }
    }
    TakeAll(entries);
  }

  /** The role loop of a multi-role entry; `aborted` when a role raised. */
  method AddRoles(profile: LinkedinProfile, jobs: seq<seq<string>>, company: string, location: string)
    returns (aborted: bool)
    modifies profile`experiences
    ensures profile.experiences == old(profile.experiences) + Roles(jobs, company, location).added
    ensures aborted == Roles(jobs, company, location).aborted
  {
    for i := 0 to |jobs|
      invariant !Roles(jobs[..i], company, location).aborted
      invariant profile.experiences == old(profile.experiences) + Roles(jobs[..i], company, location).added
    {
      RolesStep(jobs, i, company, location);
      AfterRoleShift(Roles(jobs[..i], company, location), jobs[i], company, location);
      var failed := AddRole(profile, jobs[i], company, location);
      if failed {
        RolesAbortSticks(jobs, i + 1, company, location);
        return true;
      }
    }
    TakeAll(jobs);
    return false;
  }

  /** One pass of the role loop's body. */
  method AddRole(profile: LinkedinProfile, job: seq<string>, company: string, location: string)
    returns (failed: bool)
    modifies profile`experiences
    ensures var step := AfterRole(EntryOutcome([], false), job, company, location);
      profile.experiences == old(profile.experiences) + step.added && failed == step.aborted
  {
    AppendNil(profile.experiences);
    if |job| == 0 {
      return false;
    }
    var r := RoleOf(job, company, location);
    if r.IndexError? {
      return true;
    }
    AppendNil([r.value]);
    profile.AddExperience(r.value);
    return false;
  }

  /** One experience entry; `aborted` when an exception escaped. */
  method AddExperienceEntry(profile: LinkedinProfile, info: seq<string>, numBolds: nat)
    returns (aborted: bool)
    modifies profile`experiences
    ensures profile.experiences == old(profile.experiences) + ExperienceEntry(info, numBolds).added
    ensures aborted == ExperienceEntry(info, numBolds).aborted
  {
    if numBolds == 1 {
      var r := SingleRole(info);
      if r.IndexError? {
        return true;
      }
      profile.AddExperience(r.value);
      return false;
    } else if numBolds > 1 {
      if |info| < 3 {
        return true;
      }
      var jobs := GroupLines(info[3..]);
      aborted := AddRoles(profile, jobs, info[0], BeforeDot(info[2]));
    } else {
      return false;
    }
  }

  /** __get_experience__ over the entries of the experience details page;
      `aborted` when an entry raised, which ends the pass there. */
  method GetExperience(profile: LinkedinProfile, entries: seq<seq<Span>>) returns (aborted: bool)
    modifies profile`experiences
    ensures profile.experiences == old(profile.experiences) + ExperiencePass(entries).added
    ensures aborted == ExperiencePass(entries).aborted
  {
    for i := 0 to |entries|
      invariant !ExperiencePass(entries[..i]).aborted
      invariant profile.experiences == old(profile.experiences) + ExperiencePass(entries[..i]).added
    {
      UntilAbortStep(entries, i, ExperienceEffect, old(profile.experiences));
      var stop := ScrapeExperienceEntry(profile, entries[i]);
      if stop {
        UntilAbortSticks(entries, i + 1, ExperienceEffect);
        return true;
      }
    }
    TakeAll(entries);
    return false;
  }

  /** One pass of __get_experience__'s entry loop: the kept texts and bold
      count of the entry's spans, then the entry's roles. */
  method ScrapeExperienceEntry(profile: LinkedinProfile, entry: seq<Span>) returns (aborted: bool)
    modifies profile`experiences
    ensures profile.experiences == old(profile.experiences) + ExperienceEffect(entry).added
    ensures aborted == ExperienceEffect(entry).aborted
  {
    var info, numBolds := CollectExperienceTexts(entry);
    aborted := AddExperienceEntry(profile, info, numBolds);
  }

  /** What the profile page shows: the name heading, the spans of the about
      section, and for each section the entries of its details page when the
      profile has that section. */
  datatype ProfilePage = ProfilePage(
    name: string, aboutSpans: seq<string>,
    experience: Option<seq<seq<Span>>>,
    projects: Option<seq<seq<Span>>>,
    education: Option<seq<seq<Span>>>)

  /** scrape_profile: the name, the third about span when there is one, then
      the experience, projects and education passes in that order; an
      exception escaping the experience pass ends the scrape. */
  method ScrapeProfile(profile: LinkedinProfile, page: ProfilePage) returns (aborted: bool)
    modifies profile
    ensures profile.profileUrl == old(profile.profileUrl)
    ensures profile.name == page.name
    ensures profile.about == if |page.aboutSpans| > 2 then page.aboutSpans[2] else old(profile.about)
    ensures var pass := if page.experience.Some? then ExperiencePass(page.experience.value)
                        else EntryOutcome([], false);
      && aborted == pass.aborted
      && profile.experiences == old(profile.experiences) + pass.added
    ensures profile.projects == old(profile.projects)
            + if aborted || page.projects.None? then [] else ParsedProjects(page.projects.value)
    ensures profile.educations == old(profile.educations)
            + if aborted || page.education.None? then [] else ParsedEducations(page.education.value)
  {
    AppendNil(profile.experiences);
    AppendNil(profile.projects);
    AppendNil(profile.educations);
    profile.SetName(page.name);
    if |page.aboutSpans| > 2 {
      profile.SetAbout(page.aboutSpans[2]);
    }
    aborted := false;
    if page.experience.Some? {
      aborted := GetExperience(profile, page.experience.value);
      if aborted {
        return;
      }
    }
    if page.projects.Some? {
      GetProjects(profile, page.projects.value);
    }
    if page.education.Some? {
      GetEducation(profile, page.education.value);
    }
  }
}
