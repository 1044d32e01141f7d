/** The work stages of the script: projects with their sections, then tasks
    (generate_asana_data.py:182-233). */
module Work {
  import opened Records
  import opened Oracles

  /** The number a string of decimal digits denotes. */
  function DecimalValue(s: string): int {
    if s == [] then 0
    else 10 * DecimalValue(s[..|s| - 1]) + (s[|s| - 1] as int - '0' as int)
  }

  /** The decimal digits of n, as an f-string prints an int: digits only, no leading
      zero, and reading them back gives n. */
  function NatToString(n: nat): (s: string)
    ensures |s| > 0 && forall c :: c in s ==> '0' <= c <= '9'
    ensures s[0] != '0' || s == "0"
    ensures DecimalValue(s) == n
  {
    if n < 10 then [(('0' as int) + n) as char]
    else
      var s := NatToString(n / 10) + [(('0' as int) + n % 10) as char];
      assert s[..|s| - 1] == NatToString(n / 10);
      s
  }

  /** The ordinal-th project of a team (counting from 1): it references the team, is
      named after it, has one of the three statuses and a day within the project window. */
  ghost predicate ProjectRow(p: Project, team: Team, ordinal: nat, now: Day) {
    && p.teamId == team.id
    && p.name == team.name + " Initiative " + NatToString(ordinal)
    && p.status in ProjectStatuses
    && now - ProjectWindow <= p.createdAt <= now
  }

  /** The sections of one project: the fixed names in order, the position of each its
      index, all referencing the project, which was built before them. */
  ghost predicate SectionsOf(block: seq<Section>, project: Project) {
    && |block| == |SectionNames|
    && forall j :: 0 <= j < |block| ==>
         && block[j].projectId == project.id
         && project.id < block[j].id
         && block[j].name == SectionNames[j]
         && block[j].position == j
  }

  /** Sections laid out five per project, in the order of the projects: the p-th block of
      five holds the sections of the p-th project. */
  ghost predicate SectionLayout(sections: seq<Section>, projects: seq<Project>) {
    && |sections| == 5 * |projects|
    && forall p :: 0 <= p < |projects| ==> SectionsOf(sections[5 * p .. 5 * p + 5], projects[p])
  }

  /** The sections loop of one project: one section per name, its position the name's
      index in the list, numbered from the counter. */
  method GenerateSections(projectId: Id, next: Id) returns (sections: seq<Section>, next': Id)
    ensures |sections| == |SectionNames| && next' == next + |SectionNames|
    ensures forall j :: 0 <= j < |sections| ==>
              && sections[j].projectId == projectId
              && sections[j].name == SectionNames[j]
              && sections[j].position == j
    ensures Increasing(sections, SectionId) && IdsWithin(sections, SectionId, next, next')
  {
    sections, next' := [], next;
    for idx := 0 to |SectionNames|
      invariant |sections| == idx && next' == next + idx
      invariant forall j :: 0 <= j < idx ==>
                  sections[j].projectId == projectId && sections[j].name == SectionNames[j] && sections[j].position == j
      invariant Increasing(sections, SectionId) && IdsWithin(sections, SectionId, next, next')
    {
      sections := sections + [Section(next', projectId, SectionNames[idx], idx)];
      next' := next' + 1;
    }
  }

  /** The projects loop of one team: ProjectsPerTeam projects, each followed by its
      sections. */
  method GenerateTeamProjects(team: Team, now: Day, next: Id)
    returns (projects: seq<Project>, sections: seq<Section>, next': Id)
    ensures |projects| == ProjectsPerTeam
    ensures forall i :: 0 <= i < |projects| ==> ProjectRow(projects[i], team, i + 1, now)
    ensures SectionLayout(sections, projects)
    ensures next <= next'
    ensures Increasing(projects, ProjectId) && IdsWithin(projects, ProjectId, next, next')
    ensures Increasing(sections, SectionId) && IdsWithin(sections, SectionId, next, next')
  {
    projects, sections, next' := [], [], next;
    for i := 0 to ProjectsPerTeam
      invariant |projects| == i && next <= next'
      invariant forall j :: 0 <= j < i ==> ProjectRow(projects[j], team, j + 1, now)
      invariant SectionLayout(sections, projects)
      invariant Increasing(projects, ProjectId) && IdsWithin(projects, ProjectId, next, next')
      invariant Increasing(sections, SectionId) && IdsWithin(sections, SectionId, next, next')
    {
      var projectId := next';
      next' := next' + 1;
      assert 0.0 < StatusWeights[0];
      var status := WeightedChoice(ProjectStatuses, StatusWeights);
      var createdAt := RandomPastDate(now, ProjectWindow);
      var project := Project(projectId, team.id, team.name + " Initiative " + NatToString(i + 1), status, createdAt);
      var secs, after := GenerateSections(projectId, next');
      IncreasingConcat(projects, [project], ProjectId, next, projectId, next');
      IncreasingConcat(sections, secs, SectionId, next, next', after);
      assert SectionsOf(secs, project);
      SectionLayoutStep(sections, projects, secs, project);
      projects, sections, next' := projects + [project], sections + secs, after;
    }
  }

  /** Appending a project and its five sections keeps the layout. */
  lemma SectionLayoutStep(sections: seq<Section>, projects: seq<Project>, secs: seq<Section>, project: Project)
    requires SectionLayout(sections, projects) && SectionsOf(secs, project)
    ensures SectionLayout(sections + secs, projects + [project])
  {
    SectionLayoutConcat(sections, projects, secs, [project]);
  }

  /** Gluing the layouts of two blocks of projects gives the layout of the whole. */
  lemma SectionLayoutConcat(s1: seq<Section>, p1: seq<Project>, s2: seq<Section>, p2: seq<Project>)
    requires SectionLayout(s1, p1) && SectionLayout(s2, p2)
    ensures SectionLayout(s1 + s2, p1 + p2)
  {
    var ss, ps := s1 + s2, p1 + p2;
    forall p | 0 <= p < |ps|
      ensures SectionsOf(ss[5 * p .. 5 * p + 5], ps[p])
    {
      if p < |p1| {
        assert ss[5 * p .. 5 * p + 5] == s1[5 * p .. 5 * p + 5];
        assert ps[p] == p1[p];
      } else {
        var q := p - |p1|;
        assert ss[5 * p .. 5 * p + 5] == s2[5 * q .. 5 * q + 5];
        assert ps[p] == p2[q];
      }
    }
  }

  /** The projects-and-sections loop over all teams: ProjectsPerTeam projects per team,
      the k-th belonging to team k / ProjectsPerTeam, and five sections per project. */
  method GenerateProjects(teams: seq<Team>, now: Day, next: Id)
    returns (projects: seq<Project>, sections: seq<Section>, next': Id)
    ensures |projects| == ProjectsPerTeam * |teams|
    ensures forall k :: 0 <= k < |projects| ==>
              ProjectRow(projects[k], teams[k / ProjectsPerTeam], k % ProjectsPerTeam + 1, now)
    ensures SectionLayout(sections, projects)
    ensures next <= next'
    ensures Increasing(projects, ProjectId) && IdsWithin(projects, ProjectId, next, next')
    ensures Increasing(sections, SectionId) && IdsWithin(sections, SectionId, next, next')
  {
    projects, sections, next' := [], [], next;
    for t := 0 to |teams|
      invariant |projects| == ProjectsPerTeam * t && next <= next'
      invariant forall k :: 0 <= k < |projects| ==>
                  ProjectRow(projects[k], teams[k / ProjectsPerTeam], k % ProjectsPerTeam + 1, now)
      invariant SectionLayout(sections, projects)
      invariant Increasing(projects, ProjectId) && IdsWithin(projects, ProjectId, next, next')
      invariant Increasing(sections, SectionId) && IdsWithin(sections, SectionId, next, next')
    {
      var ps, ss, after := GenerateTeamProjects(teams[t], now, next');
      forall k | 0 <= k < |projects| + |ps|
        ensures ProjectRow((projects + ps)[k], teams[k / ProjectsPerTeam], k % ProjectsPerTeam + 1, now)
      {
        if |projects| <= k {
          var i := k - |projects|;
          assert k == ProjectsPerTeam * t + i;
          assert k / ProjectsPerTeam == t && k % ProjectsPerTeam == i;
          assert (projects + ps)[k] == ps[i];
        } else {
          assert (projects + ps)[k] == projects[k];
        }
      }
      IncreasingConcat(projects, ps, ProjectId, next, next', after);
      IncreasingConcat(sections, ss, SectionId, next, next', after);
      SectionLayoutConcat(sections, projects, ss, ps);
      projects, sections, next' := projects + ps, sections + ss, after;
    }
  }

  /** `[s["section_id"] for s in sections if s["project_id"] == projectId]`: the ids of
      the sections of one project, in list order. */
  function SectionIdsOf(sections: seq<Section>, projectId: Id): (ids: seq<Id>)
    ensures |ids| <= |sections|
    ensures forall x :: x in ids <==>
              exists k :: 0 <= k < |sections| && sections[k].projectId == projectId && sections[k].id == x
  {
    if sections == [] then []
    else
      var rest := SectionIdsOf(sections[1..], projectId);
      assert forall k :: 1 <= k < |sections| ==> sections[k] == sections[1..][k - 1];
      (if sections[0].projectId == projectId then [sections[0].id] else []) + rest
  }

  /** Under the layout every project has sections to choose from. */
  lemma LayoutGivesSections(sections: seq<Section>, projects: seq<Project>, p: nat)
    requires SectionLayout(sections, projects) && p < |projects|
    ensures SectionIdsOf(sections, projects[p].id) != []
  {
    assert SectionsOf(sections[5 * p .. 5 * p + 5], projects[p]);
    assert sections[5 * p .. 5 * p + 5][0] == sections[5 * p];
    assert sections[5 * p].id in SectionIdsOf(sections, projects[p].id);
  }

  /** Under the layout, section k belongs to a project built before it, and carries the
      name and position of its place in the block. */
  lemma LayoutSectionRow(sections: seq<Section>, projects: seq<Project>, k: nat)
    requires SectionLayout(sections, projects) && k < |sections|
    ensures Has(projects, ProjectId, sections[k].projectId)
    ensures sections[k].projectId < sections[k].id
    ensures sections[k].name in SectionNames && 0 <= sections[k].position < |SectionNames|
  {
    var p := k / 5;
    assert 5 * p <= k < 5 * p + 5 && p < |projects|;
    assert SectionsOf(sections[5 * p .. 5 * p + 5], projects[p]);
    assert sections[5 * p .. 5 * p + 5][k - 5 * p] == sections[k];
    assert ProjectId(projects[p]) == sections[k].projectId;
  }

  /** The dates of a task: completed_at exactly when completed, 2 to 20 days after
      creation; a due date, when there is one, from 5 days before to 30 days after it. */
  ghost predicate TaskDates(t: Task) {
    && (t.completedAt.Some? <==> t.completed)
    && (t.completedAt.Some? ==> t.createdAt + 2 <= t.completedAt.value <= t.createdAt + 20)
    && (t.dueDate.Some? ==> t.createdAt - 5 <= t.dueDate.value <= t.createdAt + 30)
  }

  /** A task of project projectId built from its section ids secIds. */
  ghost predicate TaskOf(t: Task, projectId: Id, secIds: seq<Id>, users: seq<User>, now: Day) {
    && t.projectId == projectId
    && t.sectionId in secIds
    && t.parentTaskId == None
    && (t.assigneeId.Some? ==> Has(users, UserId, t.assigneeId.value))
    && now - TaskWindow <= t.createdAt <= now
    && TaskDates(t)
  }

  /** A task row: its project exists and its section is one of that project's. */
  ghost predicate TaskRow(t: Task, projects: seq<Project>, sections: seq<Section>, users: seq<User>, now: Day) {
    && Has(projects, ProjectId, t.projectId)
    && TaskOf(t, t.projectId, SectionIdsOf(sections, t.projectId), users, now)
  }

  /** The body of the tasks loop: one task row, or IndexError when `random.choice` meets an
      empty list of section ids or (when an assignee is drawn) an empty list of users. */
  method GenerateTask(projectId: Id, secIds: seq<Id>, users: seq<User>, now: Day, id: Id) returns (r: Result<Task>)
    ensures secIds == [] ==> r.Failure?
    ensures r.Failure? ==> r.error == EmptySequence && (secIds == [] || users == [])
    ensures r.Success? ==> r.value.id == id && TaskOf(r.value, projectId, secIds, users, now)
  {
    var created := RandomPastDate(now, TaskWindow);
    var completed := Chance(0.7);
    var section := Choice(secIds);
    if section.Failure? {
      return Failure(section.error);
    }
    var name: string := *;  // fake.sentence(nb_words=6)
    var description: Option<string> := None;
    var hasDescription := Chance(0.6);
    if hasDescription {
      var text: string := *;  // fake.text(120)
      description := Some(text);
    }
    var assignee: Option<Id> := None;
    var hasAssignee := Chance(0.85);
    if hasAssignee {
      var user := Choice(users);
      if user.Failure? {
        return Failure(user.error);
      }
      assert exists i :: 0 <= i < |users| && users[i] == user.value;
      assignee := Some(user.value.id);
    }
    var dueDate: Option<Day> := None;
    var hasDueDate := Chance(0.9);
    if hasDueDate {
      var offset := RandInt(-5, 30);
      dueDate := Some(created + offset);
    }
    var completedAt: Option<Day> := None;
    if completed {
      var offset := RandInt(2, 20);
      completedAt := Some(created + offset);
    }
    r := Success(Task(id, projectId, section.value, None, name, description, assignee,
                      dueDate, completed, created, completedAt));
  }

  /** The tasks loop of one project: TaskMin to TaskMax tasks, numbered from the counter. */
  method GenerateProjectTasks(projectId: Id, secIds: seq<Id>, users: seq<User>, now: Day, next: Id)
    returns (r: Result<seq<Task>>, next': Id)
    ensures secIds == [] ==> r.Failure?
    ensures r.Failure? ==> r.error == EmptySequence && (secIds == [] || users == [])
    ensures r.Success? ==> TaskMin <= |r.value| <= TaskMax && next' == next + |r.value|
    ensures r.Success? ==> Increasing(r.value, TaskId) && IdsWithin(r.value, TaskId, next, next')
    ensures r.Success? ==> forall k :: 0 <= k < |r.value| ==> TaskOf(r.value[k], projectId, secIds, users, now)
  {
    var count := RandInt(TaskMin, TaskMax);
    var tasks: seq<Task> := [];
    next' := next;
    for i := 0 to count
      invariant |tasks| == i && next' == next + i
      invariant secIds == [] ==> i == 0
      invariant Increasing(tasks, TaskId) && IdsWithin(tasks, TaskId, next, next')
      invariant forall k :: 0 <= k < i ==> TaskOf(tasks[k], projectId, secIds, users, now)
    {
      var task := GenerateTask(projectId, secIds, users, now, next');
      if task.Failure? {
        return Failure(task.error), next';
      }
      tasks := tasks + [task.value];
      next' := next' + 1;
    }
    r := Success(tasks);
  }

  /** What the tasks loop has built after the first i projects. */
  ghost predicate TasksBuilt(tasks: seq<Task>, projects: seq<Project>, sections: seq<Section>, users: seq<User>,
                             now: Day, i: nat)
  {
    && (forall k :: 0 <= k < |tasks| ==> TaskRow(tasks[k], projects, sections, users, now))
    && (Unique(projects, ProjectId) ==> CountsPerParent(tasks, TaskProject, projects, ProjectId, i, TaskMin, TaskMax))
  }

  /** The tasks loop over all projects. It fails only if some project has no sections or
      there are no users to assign, and it surely fails if some project has no sections. */
  method GenerateTasks(projects: seq<Project>, sections: seq<Section>, users: seq<User>, now: Day, next: Id)
    returns (r: Result<seq<Task>>, next': Id)
    ensures (exists p :: 0 <= p < |projects| && SectionIdsOf(sections, projects[p].id) == []) ==> r.Failure?
    ensures r.Failure? ==> r.error == EmptySequence && 0 < |projects|
    ensures r.Failure? ==> users == [] || exists p :: 0 <= p < |projects| && SectionIdsOf(sections, projects[p].id) == []
    ensures r.Success? ==> TaskMin * |projects| <= |r.value| <= TaskMax * |projects|
    ensures r.Success? ==> next' == next + |r.value|
    ensures r.Success? ==> Increasing(r.value, TaskId) && IdsWithin(r.value, TaskId, next, next')
    ensures r.Success? ==> forall k :: 0 <= k < |r.value| ==> TaskRow(r.value[k], projects, sections, users, now)
    ensures r.Success? && Unique(projects, ProjectId) ==>
              forall p :: 0 <= p < |projects| ==> TaskMin <= Count(r.value, TaskProject, projects[p].id) <= TaskMax
  {
    var tasks: seq<Task> := [];
    next' := next;
    for i := 0 to |projects|
      invariant TaskMin * i <= |tasks| <= TaskMax * i && next' == next + |tasks|
      invariant forall q :: 0 <= q < i ==> SectionIdsOf(sections, projects[q].id) != []
      invariant Increasing(tasks, TaskId) && IdsWithin(tasks, TaskId, next, next')
      invariant TasksBuilt(tasks, projects, sections, users, now, i)
    {
      var project := projects[i];
      var secIds := SectionIdsOf(sections, project.id);
      var block, after := GenerateProjectTasks(project.id, secIds, users, now, next');
      if block.Failure? {
        return Failure(block.error), next';
      }
      IncreasingConcat(tasks, block.value, TaskId, next, next', after);
      TasksBuiltStep(tasks, block.value, projects, sections, users, now, i);
      tasks, next' := tasks + block.value, after;
    }
    r := Success(tasks);
    if Unique(projects, ProjectId) {
      forall p | 0 <= p < |projects|
        ensures TaskMin <= Count(tasks, TaskProject, projects[p].id) <= TaskMax
      {
        assert ProjectId(projects[p]) == projects[p].id;
      }
    }
  }

  /** One turn of the tasks loop keeps TasksBuilt. */
  lemma TasksBuiltStep(tasks: seq<Task>, block: seq<Task>, projects: seq<Project>, sections: seq<Section>,
                       users: seq<User>, now: Day, i: nat)
    requires i < |projects| && TasksBuilt(tasks, projects, sections, users, now, i)
    requires TaskMin <= |block| <= TaskMax
    requires forall k :: 0 <= k < |block| ==>
               TaskOf(block[k], projects[i].id, SectionIdsOf(sections, projects[i].id), users, now)
    ensures TasksBuilt(tasks + block, projects, sections, users, now, i + 1)
  {
    var all := tasks + block;
    forall k | 0 <= k < |all|
      ensures TaskRow(all[k], projects, sections, users, now)
    {
      if k < |tasks| {
        assert all[k] == tasks[k];
      } else {
        assert all[k] == block[k - |tasks|];
        assert ProjectId(projects[i]) == all[k].projectId;
      }
    }
    if Unique(projects, ProjectId) {
      forall k | 0 <= k < |block|
        ensures TaskProject(block[k]) == ProjectId(projects[i])
      {
      }
      CountsPerParentStep(tasks, block, TaskProject, projects, ProjectId, i, TaskMin, TaskMax);
    }
  }
}
