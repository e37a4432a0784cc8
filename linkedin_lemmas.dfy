/** What the scraper's parsers guarantee (Scripts/linkedinObjects.py): which
    spans reach `actual_info`, what each parsed field is taken from, when an
    entry fails, how multi-role lines are grouped, where a project
    description stops, and that a pass appends in entry order. */
module LinkedinLemmas {
  import opened PyBuiltins
  import opened Seqs
  import opened CVs
  import opened LinkedinObjects

  // ---------------------------------------------------------------------
  // The span filter

  /** The kept spans are exactly the spans that are not noise. */
  lemma {:induction false} KeptSpansMembers(spans: seq<Span>)
    ensures forall s :: s in KeptSpans(spans) <==> s in spans && !IsNoise(s)
    ensures |KeptSpans(spans)| <= |spans|
    decreases |spans|
  {
    if spans != [] {
      var n := |spans| - 1;
      KeptSpansMembers(spans[..n]);
      assert spans == spans[..n] + [spans[n]];
    }
  }

  /** The filter keeps the spans' order: filtering two runs of spans one
      after the other is filtering each. */
  lemma {:induction false} KeptSpansAppend(a: seq<Span>, b: seq<Span>)
    ensures KeptSpans(a + b) == KeptSpans(a) + KeptSpans(b)
    decreases |b|
  {
    if b == [] {
      AppendNil(a);
    } else {
      var n := |b| - 1;
      InitOfAppend(a, b);
      KeptSpansAppend(a, b[..n]);
    }
  }

  /** `actual_info[k]` is the text of the k-th kept span. */
  lemma {:induction false} KeptTextsAt(spans: seq<Span>)
    ensures |KeptTexts(spans)| == |KeptSpans(spans)|
    ensures forall k :: 0 <= k < |KeptSpans(spans)| ==> KeptTexts(spans)[k] == KeptSpans(spans)[k].text
  {
    TextsAt(KeptSpans(spans));
  }

  lemma {:induction false} TextsAt(spans: seq<Span>)
    ensures |Texts(spans)| == |spans|
    ensures forall k :: 0 <= k < |spans| ==> Texts(spans)[k] == spans[k].text
    decreases |spans|
  {
    if spans != [] {
      TextsAt(spans[..|spans| - 1]);
    }
  }

  /** `num_bolds` counts kept spans only: it is at most their number, and it
      is 0 exactly when none of them is bold. */
  lemma {:induction false} BoldCountBounds(spans: seq<Span>)
    ensures BoldCount(spans) <= |KeptSpans(spans)|
    ensures BoldCount(spans) == 0 <==> forall s :: s in KeptSpans(spans) ==> !IsBold(s)
    decreases |spans|
  {
    if spans != [] {
      var n := |spans| - 1;
      BoldCountBounds(spans[..n]);
    }
  }

  // ---------------------------------------------------------------------
  // Dates and the '·' fields

  /** The two dates of a "start - end" text: the stripped text before the
      first '-', and the stripped text between it and the next '-'. */
  lemma DateFields(text: string)
    requires '-' in text
    ensures var dates := Split(text, '-');
      var p := |dates[0]|;
      && |dates| >= 2
      && p < |text| && text[p] == '-' && '-' !in text[..p]
      && dates[0] == text[..p]
      && dates[1] == Split(text[p + 1..], '-')[0]
  {
    SplitHasSecond(text, '-');
    SplitFirstPiece(text, '-');
    SplitTail(text, '-');
  }

  /** BeforeDot takes the line up to its first '·' (all of it when there is
      none) and strips it. */
  lemma BeforeDotSpec(line: string)
    ensures var q := |Split(line, MiddleDot)[0]|;
      && q <= |line|
      && BeforeDot(line) == Strip(line[..q])
      && MiddleDot !in line[..q]
      && (q < |line| ==> line[q] == MiddleDot)
  {
    SplitFirstPiece(line, MiddleDot);
  }

  // ---------------------------------------------------------------------
  // Education

  /** An education entry fails, and is skipped, exactly when it has fewer
      than four kept texts or its third text has no '-'. */
  lemma EducationFailure(info: seq<string>)
    ensures EducationOf(info).IndexError? <==> |info| < 4 || '-' !in info[2]
  {
    if |info| >= 3 {
      SplitHasSecond(info[2], '-');
    }
  }

  /** Where a parsed education's fields come from. */
  lemma EducationFields(info: seq<string>)
    requires EducationOf(info).Ok?
    ensures var e := EducationOf(info).value;
      var p := |Split(info[2], '-')[0]|;
      && |info| >= 4 && p < |info[2]|
      && e.title == info[0] && e.degree == info[1] && e.location == UnknownLocation
      && e.startDate == Strip(info[2][..p])
      && e.endDate == Strip(Split(info[2][p + 1..], '-')[0])
      && e.description == if StartsWith(info[3], ActivitiesPrefix) then Concat(info[4..]) else Concat(info[3..])
  {
    EducationFailure(info);
    DateFields(info[2]);
  }

  /** The extracurriculars: with no "Activities and societies:" line the list
      is [""]; with one, the list joins back to the line without the marker,
      stripped, which is the rest of the line when the marker occurs once. */
  lemma EducationActivities(info: seq<string>)
    requires EducationOf(info).Ok?
    ensures var ecs := EducationOf(info).value.extracurriculars;
      && |info| >= 4
      && (!StartsWith(info[3], ActivitiesPrefix) ==> ecs == [""])
      && (StartsWith(info[3], ActivitiesPrefix) ==> Join(ecs, ",") == Strip(RemoveAll(info[3], ActivitiesPrefix)))
      && (StartsWith(info[3], ActivitiesPrefix) && !Contains(info[3][|ActivitiesPrefix|..], ActivitiesPrefix)
          ==> Join(ecs, ",") == Strip(info[3][|ActivitiesPrefix|..]))
  {
    EducationFailure(info);
    var ecs := EducationOf(info).value.extracurriculars;
    if !StartsWith(info[3], ActivitiesPrefix) {
      assert multiset("")[','] == 0;
      assert ecs == [ecs[0]];
    } else if !Contains(info[3][|ActivitiesPrefix|..], ActivitiesPrefix) {
      RemoveLeading(info[3], ActivitiesPrefix);
    }
  }

  // ---------------------------------------------------------------------
  // Experience

  /** A single-role entry fails exactly when it has fewer than five kept
      texts or the part of its third text before '·' has no '-'. */
  lemma SingleRoleFailure(info: seq<string>)
    ensures SingleRole(info).IndexError? <==> |info| < 5 || '-' !in Split(info[2], MiddleDot)[0]
  {
    if |info| >= 3 {
      SplitHasSecond(Split(info[2], MiddleDot)[0], '-');
    }
  }

  /** A single role's title and description are the first and fifth texts
      verbatim, company and location the stripped parts of the second and
      fourth before their first '·', and the dates come from the part of the
      third before '·'. */
  lemma SingleRoleFields(info: seq<string>)
    requires SingleRole(info).Ok?
    ensures var e := SingleRole(info).value;
      var d := Split(info[2], MiddleDot)[0];
      var p := |Split(d, '-')[0]|;
      && |info| >= 5 && p < |d|
      && e.title == info[0] && e.description == info[4]
      && e.companyName == BeforeDot(info[1]) && e.location == BeforeDot(info[3])
      && e.startDate == Strip(d[..p])
      && e.endDate == Strip(Split(d[p + 1..], '-')[0])
  {
    SingleRoleFailure(info);
    DateFields(Split(info[2], MiddleDot)[0]);
  }

  /** One role of a multi-role entry fails exactly when the group has one
      line or its second line has no '-' before '·'; otherwise the title is
      the stripped first line and the description the third line, or ''. */
  lemma RoleOfSpec(job: seq<string>, company: string, location: string)
    requires job != []
    ensures RoleOf(job, company, location).IndexError? <==> |job| < 2 || '-' !in Split(job[1], MiddleDot)[0]
    ensures RoleOf(job, company, location).Ok? ==>
      var e := RoleOf(job, company, location).value;
      && e.title == Strip(job[0])
      && e.description == (if |job| > 2 then job[2] else "")
      && e.companyName == company && e.location == location
  {
    if |job| >= 2 {
      SplitHasSecond(Split(job[1], MiddleDot)[0], '-');
    }
  }

  /** The number of bold spans decides the shape: none adds nothing and
      never fails, one adds exactly one experience or fails adding none. */
  lemma ExperienceEntryShape(info: seq<string>, numBolds: nat)
    ensures numBolds == 0 ==> ExperienceEntry(info, numBolds) == EntryOutcome([], false)
    ensures numBolds == 1 ==>
      var o := ExperienceEntry(info, numBolds);
      (|o.added| == 1 && !o.aborted) || (o.added == [] && o.aborted)
    ensures numBolds > 1 ==> ExperienceEntry(info, numBolds) == MultiRole(info)
  {
  }

  /** The lines that are not whitespace-only, in order. */
  function NonBlank(lines: seq<string>): seq<string>
  {
    if lines == [] then []
    else NonBlank(lines[..|lines| - 1]) + (if Strip(lines[|lines| - 1]) == "" then [] else [lines[|lines| - 1]])
  }

  /** The groups' lines one after the other. */
  function Ungroup(groups: seq<seq<string>>): seq<string>
  {
    if groups == [] then [] else Ungroup(groups[..|groups| - 1]) + groups[|groups| - 1]
  }

  lemma UngroupSnoc(groups: seq<seq<string>>, g: seq<string>)
    ensures Ungroup(groups + [g]) == Ungroup(groups) + g
  {
    assert (groups + [g])[..|groups|] == groups;
  }

  /** The closed groups and the open one together hold the non-blank lines
      read so far, in order. */
  lemma {:induction false} GroupedLines(lines: seq<string>)
    ensures Ungroup(Grouped(lines).jobs) + Grouped(lines).current == NonBlank(lines)
    decreases |lines|
  {
    if lines != [] {
      var n := |lines| - 1;
      GroupedLines(lines[..n]);
      var before := Grouped(lines[..n]);
      if Strip(lines[n]) == "" {
        UngroupSnoc(before.jobs, before.current);
        AppendNil(Ungroup(before.jobs) + before.current);
      } else {
        AppendAssoc(Ungroup(before.jobs), before.current, [lines[n]]);
      }
    }
  }

  /** None of the lines is whitespace-only. */
  predicate NoBlankLine(lines: seq<string>)
  {
    forall k :: 0 <= k < |lines| ==> Strip(lines[k]) != ""
  }

  /** No group, closed or open, holds a whitespace-only line. */
  lemma {:induction false} GroupedNonBlank(lines: seq<string>)
    ensures NoBlankLine(Grouped(lines).current)
    ensures forall i :: 0 <= i < |Grouped(lines).jobs| ==> NoBlankLine(Grouped(lines).jobs[i])
    decreases |lines|
  {
    if lines != [] {
      var n := |lines| - 1;
      GroupedNonBlank(lines[..n]);
      var before := Grouped(lines[..n]);
      if Strip(lines[n]) == "" {
        forall i | 0 <= i < |before.jobs| + 1
          ensures NoBlankLine((before.jobs + [before.current])[i])
        {
          if i < |before.jobs| {
            assert (before.jobs + [before.current])[i] == before.jobs[i];
          }
        }
      } else {
        forall k | 0 <= k < |before.current| + 1
          ensures Strip((before.current + [lines[n]])[k]) != ""
        {
          if k < |before.current| {
            assert (before.current + [lines[n]])[k] == before.current[k];
          }
        }
      }
    }
  }

  /** Grouping loses no line and keeps no blank one: the groups, read one
      after the other, are the non-blank lines in order (so a trailing
      group is kept). */
  lemma GroupsSpec(lines: seq<string>)
    ensures Ungroup(Groups(lines)) == NonBlank(lines)
  {
    GroupedLines(lines);
    var g := Grouped(lines);
    if g.current != [] {
      UngroupSnoc(g.jobs, g.current);
    } else {
      AppendNil(Ungroup(g.jobs));
    }
  }

  /** No group holds a whitespace-only line. */
  lemma GroupsNonBlank(lines: seq<string>)
    ensures forall i :: 0 <= i < |Groups(lines)| ==> NoBlankLine(Groups(lines)[i])
  {
    GroupedNonBlank(lines);
    var g := Grouped(lines);
    if g.current != [] {
      forall i | 0 <= i < |g.jobs| + 1 ensures NoBlankLine((g.jobs + [g.current])[i]) {
        if i < |g.jobs| {
          assert (g.jobs + [g.current])[i] == g.jobs[i];
        }
      }
    }
  }

  /** Lines without a blank one stay in the open group. */
  lemma {:induction false} GroupedUnbroken(lines: seq<string>)
    requires NoBlankLine(lines)
    ensures Grouped(lines) == Grouping([], lines)
    decreases |lines|
  {
    if lines != [] {
      var n := |lines| - 1;
      assert NoBlankLine(lines[..n]) by {
        forall k | 0 <= k < n ensures Strip(lines[..n][k]) != "" {
          assert lines[..n][k] == lines[k];
        }
      }
      GroupedUnbroken(lines[..n]);
      TakeSnoc(lines, n);
      TakeAll(lines);
    }
  }

  /** Grouping one more line is one more step of the loop. */
  lemma GroupedSnoc(lines: seq<string>, x: string)
    ensures Grouped(lines + [x]) == GroupStep(Grouped(lines), x)
  {
    InitOfAppend(lines, [x]);
    AppendNil(lines);
  }

  /** A blank line closes everything before it: grouping what follows
      starts afresh. */
  lemma {:induction false} GroupedAfterBreak(a: seq<string>, x: string, b: seq<string>)
    requires Strip(x) == ""
    ensures Grouped(a + [x] + b)
         == Grouping(Grouped(a).jobs + [Grouped(a).current] + Grouped(b).jobs, Grouped(b).current)
    decreases |b|
  {
    var closed := Grouped(a).jobs + [Grouped(a).current];
    if b == [] {
      AppendNil(a + [x]);
      GroupedSnoc(a, x);
      AppendNil(closed);
    } else {
      var m := |b| - 1;
      var init := b[..m];
      GroupedAfterBreak(a, x, init);
      TakeSnoc(b, m);
      TakeAll(b);
      AppendAssoc(a + [x], init, [b[m]]);
      GroupedSnoc(a + [x] + init, b[m]);
      var g := Grouped(init);
      if Strip(b[m]) == "" {
        AppendAssoc(closed, g.jobs, [g.current]);
      }
    }
  }

  /** Lines without a blank one form a single group, or none when there
      are no lines. */
  lemma GroupsUnbroken(lines: seq<string>)
    requires NoBlankLine(lines)
    ensures Groups(lines) == if lines == [] then [] else [lines]
  {
    GroupedUnbroken(lines);
  }

  /** The first blank line ends the first group, which may be empty; the
      rest is grouped on its own. With GroupsUnbroken this determines the
      groups of every list of lines. */
  lemma GroupsFirstBreak(lines: seq<string>, k: nat)
    requires k < |lines| && NoBlankLine(lines[..k]) && Strip(lines[k]) == ""
    ensures Groups(lines) == [lines[..k]] + Groups(lines[k + 1..])
  {
    Around(lines, k);
    GroupedAfterBreak(lines[..k], lines[k], lines[k + 1..]);
    GroupedUnbroken(lines[..k]);
    var g := Grouped(lines[k + 1..]);
    AppendNil<seq<string>>([lines[..k]]);
    if g.current != [] {
      AppendAssoc([lines[..k]], g.jobs, [g.current]);
    }
  }

  /** Which of the example's lines are blank. */
  lemma ExampleBlanks()
    ensures Strip("a") != "" && Strip("b") != "" && Strip("c") != ""
    ensures Strip(" ") == ""
  {
    StripEmpty("a");
    StripEmpty("b");
    StripEmpty("c");
    StripEmpty(" ");
    assert "a"[0] == 'a' && "b"[0] == 'b' && "c"[0] == 'c';
  }

  /** Adjacent non-blank lines share a group: "a" and "b" are one role,
      "c" after the blank line another. */
  lemma GroupsExample()
    ensures Groups(["a", "b", " ", "c"]) == [["a", "b"], ["c"]]
  {
    var lines := ["a", "b", " ", "c"];
    ExampleBlanks();
    assert lines[..2] == ["a", "b"];
    assert lines[3..] == ["c"];
    GroupsFirstBreak(lines, 2);
    GroupsUnbroken(["c"]);
  }

  /** The groups that are not empty, in order: the ones the role loop
      turns into roles. */
  function NonEmptyGroups(jobs: seq<seq<string>>): seq<seq<string>>
  {
    if jobs == [] then []
    else NonEmptyGroups(jobs[..|jobs| - 1]) + (if jobs[|jobs| - 1] == [] then [] else [jobs[|jobs| - 1]])
  }

  /** Every role of a multi-role entry shares its company and location. */
  lemma {:induction false} RolesShared(jobs: seq<seq<string>>, company: string, location: string)
    ensures forall e :: e in Roles(jobs, company, location).added ==>
      e.companyName == company && e.location == location
    decreases |jobs|
  {
    if jobs != [] {
      var n := |jobs| - 1;
      RolesShared(jobs[..n], company, location);
      if jobs[n] != [] {
        RoleOfSpec(jobs[n], company, location);
      }
    }
  }

  /** At most one role per non-empty group, and exactly one when no role
      failed. */
  lemma {:induction false} RolesCount(jobs: seq<seq<string>>, company: string, location: string)
    ensures |Roles(jobs, company, location).added| <= |NonEmptyGroups(jobs)|
    ensures !Roles(jobs, company, location).aborted ==>
      |Roles(jobs, company, location).added| == |NonEmptyGroups(jobs)|
    decreases |jobs|
  {
    if jobs != [] {
      RolesCount(jobs[..|jobs| - 1], company, location);
    }
  }

  /** The roles, in order, are the parses of the non-empty groups, in
      order, up to the first group whose parse raises; when one raises the
      loop has stopped there, and otherwise every non-empty group gave its
      role. */
  lemma {:induction false} RolesOrder(jobs: seq<seq<string>>, company: string, location: string)
    ensures var o := Roles(jobs, company, location); var groups := NonEmptyGroups(jobs);
      && |o.added| <= |groups|
      && (forall k :: 0 <= k < |o.added| ==> groups[k] != [] && RoleOf(groups[k], company, location) == Ok(o.added[k]))
      && (o.aborted ==> |o.added| < |groups| && groups[|o.added|] != []
                        && RoleOf(groups[|o.added|], company, location).IndexError?)
      && (!o.aborted ==> |o.added| == |groups|)
    decreases |jobs|
  {
    if jobs != [] {
      var n := |jobs| - 1;
      RolesOrder(jobs[..n], company, location);
      var before := Roles(jobs[..n], company, location);
      var prior := NonEmptyGroups(jobs[..n]);
      if jobs[n] != [] {
        var groups := prior + [jobs[n]];
        forall k | 0 <= k < |prior| ensures groups[k] == prior[k] {
        }
        if !before.aborted && RoleOf(jobs[n], company, location).Ok? {
          var added := before.added + [RoleOf(jobs[n], company, location).value];
          forall k | 0 <= k < |before.added| ensures added[k] == before.added[k] {
          }
        }
      } else {
        AppendNil(prior);
      }
    }
  }

  /** A failing non-empty group makes the loop stop. */
  lemma RolesAbortFrom(jobs: seq<seq<string>>, j: nat, company: string, location: string)
    requires j < |jobs| && jobs[j] != [] && RoleOf(jobs[j], company, location).IndexError?
    ensures Roles(jobs, company, location).aborted
  {
    RolesStep(jobs, j, company, location);
    RolesAbortSticks(jobs, j + 1, company, location);
  }

  /** A loop that stopped met a failing non-empty group. */
  lemma {:induction false} RolesAbortWitness(jobs: seq<seq<string>>, company: string, location: string)
    requires Roles(jobs, company, location).aborted
    ensures exists j :: 0 <= j < |jobs| && jobs[j] != [] && RoleOf(jobs[j], company, location).IndexError?
    decreases |jobs|
  {
    var n := |jobs| - 1;
    var init := jobs[..n];
    if Roles(init, company, location).aborted {
      RolesAbortWitness(init, company, location);
      var j :| 0 <= j < |init| && init[j] != [] && RoleOf(init[j], company, location).IndexError?;
      assert jobs[j] == init[j];
    } else {
      assert jobs[n] != [] && RoleOf(jobs[n], company, location).IndexError?;
    }
  }

  /** The role loop stops exactly when some non-empty group fails. */
  lemma RolesAbort(jobs: seq<seq<string>>, company: string, location: string)
    ensures Roles(jobs, company, location).aborted
        <==> exists j :: 0 <= j < |jobs| && jobs[j] != [] && RoleOf(jobs[j], company, location).IndexError?
  {
    if Roles(jobs, company, location).aborted {
      RolesAbortWitness(jobs, company, location);
    } else {
      forall j | 0 <= j < |jobs| && jobs[j] != []
        ensures RoleOf(jobs[j], company, location).Ok?
      {
        if RoleOf(jobs[j], company, location).IndexError? {
          RolesAbortFrom(jobs, j, company, location);
        }
      }
    }
  }

  /** A multi-role entry: with fewer than three texts it fails at once;
      otherwise every role it adds has the first text as company and the
      stripped part of the third before '·' as location, and without a
      failure there is one role per non-empty group of lines. */
  lemma MultiRoleSpec(info: seq<string>)
    ensures |info| < 3 ==> MultiRole(info) == EntryOutcome([], true)
    ensures |info| >= 3 ==>
      var o := MultiRole(info);
      && (forall e :: e in o.added ==> e.companyName == info[0] && e.location == BeforeDot(info[2]))
      && (!o.aborted ==> |o.added| == |NonEmptyGroups(Groups(info[3..]))|)
  {
    if |info| >= 3 {
      RolesShared(Groups(info[3..]), info[0], BeforeDot(info[2]));
      RolesCount(Groups(info[3..]), info[0], BeforeDot(info[2]));
    }
  }

  // ---------------------------------------------------------------------
  // Projects

  /** A project entry fails, and is skipped, exactly when it has fewer than
      two kept texts or its second text has no '-'. */
  lemma ProjectFailure(info: seq<string>)
    ensures ProjectOf(info).IndexError? <==> |info| < 2 || '-' !in info[1]
  {
    if |info| >= 2 {
      SplitHasSecond(info[1], '-');
    }
  }

  /** Where a parsed project's fields come from. */
  lemma ProjectFields(info: seq<string>)
    requires ProjectOf(info).Ok?
    ensures var pr := ProjectOf(info).value;
      var p := |Split(info[1], '-')[0]|;
      && |info| >= 2 && p < |info[1]|
      && pr.title == Strip(info[0])
      && pr.startDate == Strip(info[1][..p])
      && pr.endDate == Strip(Split(info[1][p + 1..], '-')[0])
      && pr.description == ProjectDescription(info[2..])
  {
    ProjectFailure(info);
    DateFields(info[1]);
  }

  lemma SkillsLineKept(line: string)
    requires StartsWith(line, SkillsPrefix)
    ensures line != "" && !StartsWith(line, AssociatedPrefix)
  {
    assert line[0] == SkillsPrefix[0];
  }

  /** A first line that strips to a "Skills:" line ends the description
      before it starts. */
  lemma SkillsFirst(lines: seq<string>)
    requires lines != [] && StartsWith(Strip(lines[0]), SkillsPrefix)
    ensures ProjectDescription(lines) == ""
  {
    SkillsLineKept(Strip(lines[0]));
  }

  /** The description is decided line by line from the front. */
  lemma ProjectDescriptionSameHead(a: seq<string>, b: seq<string>)
    requires a != [] && b != [] && a[0] == b[0]
    requires ProjectDescription(a[1..]) == ProjectDescription(b[1..])
    ensures ProjectDescription(a) == ProjectDescription(b)
  {
  }

  /** Nothing from the first "Skills:" line on reaches the description. */
  lemma {:induction false} SkillsTruncates(lines: seq<string>, k: nat)
    requires k < |lines| && StartsWith(Strip(lines[k]), SkillsPrefix)
    ensures ProjectDescription(lines) == ProjectDescription(lines[..k])
    decreases k
  {
    if k == 0 {
      SkillsFirst(lines);
    } else {
      SkillsTruncates(lines[1..], k - 1);
      TakeOfTail(lines, k);
      ProjectDescriptionSameHead(lines, lines[..k]);
    }
  }

  /** Before any "Skills:" line the description is built line by line:
      lines that precede the marker contribute their part in order. */
  lemma {:induction false} ProjectDescriptionAppend(a: seq<string>, b: seq<string>)
    requires forall k :: 0 <= k < |a| ==> !StartsWith(Strip(a[k]), SkillsPrefix)
    ensures ProjectDescription(a + b) == ProjectDescription(a) + ProjectDescription(b)
    decreases |a|
  {
    if a == [] {
      AppendNil(b);
    } else {
      TailOfAppend(a, b);
      ProjectDescriptionAppend(a[1..], b);
    }
  }

  /** Blank, "Associated with" and "Skills:"-free lines: a kept line adds
      exactly its stripped text, a skipped one adds nothing. */
  lemma ProjectDescriptionLine(line: string)
    requires !StartsWith(Strip(line), SkillsPrefix)
    ensures ProjectDescription([line])
         == if Strip(line) == "" || StartsWith(Strip(line), AssociatedPrefix) then "" else Strip(line)
  {
    assert [line][1..] == [];
  }

  // ---------------------------------------------------------------------
  // The passes

  /** A pass appends in entry order. */
  lemma {:induction false} SuccessesAppend<T>(a: seq<seq<Span>>, b: seq<seq<Span>>, parse: seq<Span> -> Result<T>)
    ensures Successes(a + b, parse) == Successes(a, parse) + Successes(b, parse)
    decreases |b|
  {
    if b == [] {
      AppendNil(a);
    } else {
      var n := |b| - 1;
      InitOfAppend(a, b);
      SuccessesAppend(a, b[..n], parse);
    }
  }

  /** A failing entry skips only itself: the pass appends exactly the values
      of the entries that parse, at most one per entry. */
  lemma {:induction false} SuccessesMembers<T>(entries: seq<seq<Span>>, parse: seq<Span> -> Result<T>)
    ensures |Successes(entries, parse)| <= |entries|
    ensures forall v :: v in Successes(entries, parse)
              <==> exists k :: 0 <= k < |entries| && parse(entries[k]) == Ok(v)
    decreases |entries|
  {
    if entries != [] {
      var n := |entries| - 1;
      var init := entries[..n];
      SuccessesMembers(init, parse);
      forall v
        ensures v in Successes(entries, parse) <==> exists k :: 0 <= k < |entries| && parse(entries[k]) == Ok(v)
      {
        if exists k :: 0 <= k < |entries| && parse(entries[k]) == Ok(v) {
          var k :| 0 <= k < |entries| && parse(entries[k]) == Ok(v);
          if k < n {
            assert init[k] == entries[k];
          }
        }
        if v in Successes(init, parse) {
          var k :| 0 <= k < |init| && parse(init[k]) == Ok(v);
          assert entries[k] == init[k];
        }
      }
    }
  }

  /** The education pass: in entry order, one education per entry that
      parses, none for an entry that fails. */
  lemma ParsedEducationsSpec(a: seq<seq<Span>>, b: seq<seq<Span>>)
    ensures ParsedEducations(a + b) == ParsedEducations(a) + ParsedEducations(b)
    ensures |ParsedEducations(a)| <= |a|
    ensures forall e :: e in ParsedEducations(a) <==> exists k :: 0 <= k < |a| && EducationEntry(a[k]) == Ok(e)
  {
    SuccessesAppend(a, b, EducationEntry);
    SuccessesMembers(a, EducationEntry);
  }

  /** The projects pass: in entry order, one project per entry that parses,
      none for an entry that fails. */
  lemma ParsedProjectsSpec(a: seq<seq<Span>>, b: seq<seq<Span>>)
    ensures ParsedProjects(a + b) == ParsedProjects(a) + ParsedProjects(b)
    ensures |ParsedProjects(a)| <= |a|
    ensures forall p :: p in ParsedProjects(a) <==> exists k :: 0 <= k < |a| && ProjectEntry(a[k]) == Ok(p)
  {
    SuccessesAppend(a, b, ProjectEntry);
    SuccessesMembers(a, ProjectEntry);
  }

  /** No rollback: what a pass appended after k entries is a prefix of what
      it appends in the end, and once it has aborted nothing changes. */
  lemma {:induction false} UntilAbortPrefix(entries: seq<seq<Span>>, k: nat, effect: seq<Span> -> EntryOutcome)
    requires k <= |entries|
    ensures UntilAbort(entries[..k], effect).added <= UntilAbort(entries, effect).added
    ensures UntilAbort(entries[..k], effect).aborted ==> UntilAbort(entries, effect) == UntilAbort(entries[..k], effect)
    decreases |entries|
  {
    if k < |entries| {
      var n := |entries| - 1;
      var init := entries[..n];
      assert init[..k] == entries[..k];
      UntilAbortPrefix(init, k, effect);
      var a, b, c := UntilAbort(entries[..k], effect).added, UntilAbort(init, effect).added, UntilAbort(entries, effect).added;
      assert b <= c;
      assert a <= c by {
        forall i | 0 <= i < |a| ensures a[i] == c[i] {
          assert a[i] == b[i];
        }
      }
    } else {
      assert entries[..k] == entries;
    }
  }

  /** The experience pass keeps every role appended before a failure, and a
      failure ends it. */
  lemma ExperiencePassPrefix(entries: seq<seq<Span>>, k: nat)
    requires k <= |entries|
    ensures ExperiencePass(entries[..k]).added <= ExperiencePass(entries).added
    ensures ExperiencePass(entries[..k]).aborted ==> ExperiencePass(entries) == ExperiencePass(entries[..k])
  {
    UntilAbortPrefix(entries, k, ExperienceEffect);
  }
}
