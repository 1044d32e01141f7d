/** The whole run of the script: the twelve tables it fills, the stages in the order it
    runs them with one id counter threaded through, and what the finished database
    satisfies (generate_asana_data.py:25-291). */
module Generator {
  import opened Records
  import opened Oracles
  import opened People
  import opened Work
  import opened Annotations

  /** The rows of the twelve tables, in insertion order. The script defines exactly one
      custom field, so its table is a single row. */
  datatype Dataset = Dataset(organization: Organization, users: seq<User>, teams: seq<Team>,
                             memberships: seq<TeamMembership>, projects: seq<Project>,
                             sections: seq<Section>, tasks: seq<Task>, comments: seq<Comment>,
                             field: CustomFieldDefinition, values: seq<CustomFieldValue>,
                             tags: seq<Tag>, taskTags: seq<TaskTag>)

  /** Every PRIMARY KEY of the schema holds: no table has two rows with the same key. */
  ghost predicate PrimaryKeysHold(d: Dataset) {
    && Unique(d.users, UserId)
    && Unique(d.teams, TeamId)
    && Unique(d.memberships, MembershipKey)
    && Unique(d.projects, ProjectId)
    && Unique(d.sections, SectionId)
    && Unique(d.tasks, TaskId)
    && Unique(d.comments, CommentId)
    && Unique(d.values, ValueKey)
    && Unique(d.tags, TagId)
    && Unique(d.taskTags, LinkKey)
  }

  /** Every id column names a row that exists, and a task's section belongs to the
      task's own project. */
  ghost predicate ReferencesResolve(d: Dataset) {
    PeopleResolve(d) && WorkResolve(d) && AnnotationsResolve(d)
  }

  /** Users and teams belong to the organization; memberships join existing rows. */
  ghost predicate PeopleResolve(d: Dataset) {
    && (forall k :: 0 <= k < |d.users| ==> d.users[k].organizationId == d.organization.id)
    && (forall k :: 0 <= k < |d.teams| ==> d.teams[k].organizationId == d.organization.id)
    && (forall k :: 0 <= k < |d.memberships| ==>
          Has(d.teams, TeamId, d.memberships[k].teamId) && Has(d.users, UserId, d.memberships[k].userId))
  }

  /** Projects, sections and tasks reference existing rows. */
  ghost predicate WorkResolve(d: Dataset) {
    && (forall k :: 0 <= k < |d.projects| ==> Has(d.teams, TeamId, d.projects[k].teamId))
    && (forall k :: 0 <= k < |d.sections| ==> Has(d.projects, ProjectId, d.sections[k].projectId))
    && (forall k :: 0 <= k < |d.tasks| ==> TaskResolves(d.tasks[k], d))
  }

  /** Comments, field values and tag links reference existing rows. */
  ghost predicate AnnotationsResolve(d: Dataset) {
    && (forall k :: 0 <= k < |d.comments| ==>
          Has(d.tasks, TaskId, d.comments[k].taskId) && Has(d.users, UserId, d.comments[k].authorId))
    && d.field.organizationId == d.organization.id
    && (forall k :: 0 <= k < |d.values| ==>
          Has(d.tasks, TaskId, d.values[k].taskId) && d.values[k].fieldId == d.field.id)
    && (forall k :: 0 <= k < |d.tags| ==> d.tags[k].organizationId == d.organization.id)
    && (forall k :: 0 <= k < |d.taskTags| ==>
          Has(d.tasks, TaskId, d.taskTags[k].taskId) && Has(d.tags, TagId, d.taskTags[k].tagId))
  }

  /** The references of one task: its project, a section of that project, no parent, and
      an existing assignee when it has one. */
  ghost predicate TaskResolves(t: Task, d: Dataset) {
    && Has(d.projects, ProjectId, t.projectId)
    && (exists s :: 0 <= s < |d.sections| && d.sections[s].id == t.sectionId && d.sections[s].projectId == t.projectId)
    && t.parentTaskId == None
    && (t.assigneeId.Some? ==> Has(d.users, UserId, t.assigneeId.value))
  }

  /** Every row with an id of its own references only rows numbered before it: the rows
      can be inserted in the order they were built. */
  ghost predicate ReferencesPrecede(d: Dataset) {
    && (forall k :: 0 <= k < |d.users| ==> d.users[k].organizationId < d.users[k].id)
    && (forall k :: 0 <= k < |d.teams| ==> d.teams[k].organizationId < d.teams[k].id)
    && (forall k :: 0 <= k < |d.projects| ==> d.projects[k].teamId < d.projects[k].id)
    && (forall k :: 0 <= k < |d.sections| ==> d.sections[k].projectId < d.sections[k].id)
    && (forall k :: 0 <= k < |d.tasks| ==>
          && d.tasks[k].projectId < d.tasks[k].id && d.tasks[k].sectionId < d.tasks[k].id
          && (d.tasks[k].assigneeId.Some? ==> d.tasks[k].assigneeId.value < d.tasks[k].id))
    && (forall k :: 0 <= k < |d.comments| ==>
          d.comments[k].taskId < d.comments[k].id && d.comments[k].authorId < d.comments[k].id)
    && d.field.organizationId < d.field.id
    && (forall k :: 0 <= k < |d.tags| ==> d.tags[k].organizationId < d.tags[k].id)
  }

  /** The sizes of the user and team tables after a run with numUsers users and numTeams
      teams: `range` yields nothing for a negative count, and the team names are sliced. */
  ghost predicate Sizes(d: Dataset, numUsers: int, numTeams: int) {
    && |d.users| == (if numUsers < 0 then 0 else numUsers)
    && |d.teams| == SliceEnd(numTeams, |TeamNames|)
  }

  /** The table sizes the per-row bounds add up to. */
  ghost predicate Totals(d: Dataset) {
    && |d.users| <= |d.memberships| <= 3 * |d.users|
    && |d.sections| == |SectionNames| * |d.projects|
    && TaskMin * |d.projects| <= |d.tasks| <= TaskMax * |d.projects|
    && |d.comments| <= 3 * |d.tasks|
    && |d.values| <= |d.tasks|
    && |d.taskTags| <= |d.tasks|
  }

  /** What each table holds after a run at day now. */
  ghost predicate Rows(d: Dataset, now: Day) {
    && PeopleRows(d.organization, d.users, d.teams, d.memberships, now)
    && WorkRows(d.teams, d.users, d.projects, d.sections, d.tasks, now)
    && AnnotationRows(d.organization, d.users, d.tasks, d.comments, d.field, d.values, d.tags, d.taskTags)
  }

  /** The organization, its users and teams, and 1 to 3 memberships per user with no
      (team, user) pair repeated. */
  ghost predicate PeopleRows(organization: Organization, users: seq<User>, teams: seq<Team>,
                             memberships: seq<TeamMembership>, now: Day)
  {
    && organization.name == OrganizationName
    && now - OrganizationWindow <= organization.createdAt <= now
    && (forall k :: 0 <= k < |users| ==> UserRow(users[k], organization.id, now))
    && |teams| <= |TeamNames|
    && (forall k :: 0 <= k < |teams| ==> teams[k].name == TeamNames[k] && TeamRow(teams[k], organization.id, now))
    && (forall k :: 0 <= k < |memberships| ==> MembershipRow(memberships[k], users, teams))
    && (forall i :: 0 <= i < |users| ==> 1 <= Count(memberships, MembershipUser, users[i].id) <= 3)
    && Unique(memberships, MembershipKey)
  }

  /** Three projects per team, five sections per project, 10 to 25 tasks per project. */
  ghost predicate WorkRows(teams: seq<Team>, users: seq<User>, projects: seq<Project>, sections: seq<Section>,
                           tasks: seq<Task>, now: Day)
  {
    && |projects| == ProjectsPerTeam * |teams|
    && (forall k :: 0 <= k < |projects| ==>
          ProjectRow(projects[k], teams[k / ProjectsPerTeam], k % ProjectsPerTeam + 1, now))
    && SectionLayout(sections, projects)
    && (forall k :: 0 <= k < |tasks| ==> TaskRow(tasks[k], projects, sections, users, now))
    && (forall p :: 0 <= p < |projects| ==> TaskMin <= Count(tasks, TaskProject, projects[p].id) <= TaskMax)
  }

  /** Up to 3 comments per task, at most one priority value and one "urgent" link per
      task, and the two tags. */
  ghost predicate AnnotationRows(organization: Organization, users: seq<User>, tasks: seq<Task>,
                                 comments: seq<Comment>, field: CustomFieldDefinition,
                                 values: seq<CustomFieldValue>, tags: seq<Tag>, taskTags: seq<TaskTag>)
  {
    && (forall k :: 0 <= k < |comments| ==> CommentRow(comments[k], tasks, users))
    && (forall i :: 0 <= i < |tasks| ==> Count(comments, CommentTask, tasks[i].id) <= 3)
    && field == CustomFieldDefinition(field.id, organization.id, PriorityFieldName, PriorityFieldType)
    && (forall k :: 0 <= k < |values| ==> ValueRow(values[k], tasks, field.id))
    && Unique(values, ValueTask) && Unique(values, ValueKey)
    && |tags| == 2
    && tags[0] == Tag(tags[0].id, organization.id, UrgentTagName)
    && tags[1] == Tag(tags[1].id, organization.id, BlockedTagName)
    && (forall k :: 0 <= k < |taskTags| ==> LinkRow(taskTags[k], tasks, tags[0].id))
    && Unique(taskTags, LinkTask) && Unique(taskTags, LinkKey)
  }

  /** The people rows of a run resolve their references. */
  lemma PeopleRowsResolve(d: Dataset, now: Day)
    requires PeopleRows(d.organization, d.users, d.teams, d.memberships, now)
    ensures PeopleResolve(d)
  {
  }

  /** The work rows of a run resolve their references. */
  lemma WorkRowsResolve(d: Dataset, now: Day)
    requires WorkRows(d.teams, d.users, d.projects, d.sections, d.tasks, now)
    ensures WorkResolve(d)
  {
    forall k | 0 <= k < |d.projects|
      ensures Has(d.teams, TeamId, d.projects[k].teamId)
    {
      var t := k / ProjectsPerTeam;
      assert ProjectRow(d.projects[k], d.teams[t], k % ProjectsPerTeam + 1, now);
      assert t < |d.teams| && TeamId(d.teams[t]) == d.projects[k].teamId;
    }
    forall k | 0 <= k < |d.sections|
      ensures Has(d.projects, ProjectId, d.sections[k].projectId)
    {
      LayoutSectionRow(d.sections, d.projects, k);
    }
    forall k | 0 <= k < |d.tasks|
      ensures TaskResolves(d.tasks[k], d)
    {
      assert TaskRow(d.tasks[k], d.projects, d.sections, d.users, now);
    }
  }

  /** The annotation rows of a run resolve their references. */
  lemma AnnotationRowsResolve(d: Dataset)
    requires AnnotationRows(d.organization, d.users, d.tasks, d.comments, d.field, d.values, d.tags, d.taskTags)
    ensures AnnotationsResolve(d)
  {
    forall k | 0 <= k < |d.comments|
      ensures Has(d.tasks, TaskId, d.comments[k].taskId) && Has(d.users, UserId, d.comments[k].authorId)
    {
      assert CommentRow(d.comments[k], d.tasks, d.users);
      var i :| 0 <= i < |d.tasks| && CommentOf(d.comments[k], d.tasks[i], d.users);
      assert TaskId(d.tasks[i]) == d.comments[k].taskId;
    }
    forall k | 0 <= k < |d.taskTags|
      ensures Has(d.tasks, TaskId, d.taskTags[k].taskId) && Has(d.tags, TagId, d.taskTags[k].tagId)
    {
      assert LinkRow(d.taskTags[k], d.tasks, d.tags[0].id);
      assert TagId(d.tags[0]) == d.taskTags[k].tagId;
    }
  }

  /** The rows of a run resolve every reference they make. */
  lemma RowsResolve(d: Dataset, now: Day)
    requires Rows(d, now)
    ensures ReferencesResolve(d)
  {
    PeopleRowsResolve(d, now);
    WorkRowsResolve(d, now);
    AnnotationRowsResolve(d);
  }

  /** The ids of a run, drawn from one counter stage after stage: the organization 0,
      users from 1 up to usersEnd, then teams, projects with their sections, tasks,
      comments, the field and the two tags. */
  ghost predicate Numbered(d: Dataset, usersEnd: Id, teamsEnd: Id, workEnd: Id, tasksEnd: Id) {
    && d.organization.id == 0
    && 1 <= usersEnd <= teamsEnd <= workEnd <= tasksEnd <= d.field.id
    && Increasing(d.users, UserId) && IdsWithin(d.users, UserId, 1, usersEnd)
    && Increasing(d.teams, TeamId) && IdsWithin(d.teams, TeamId, usersEnd, teamsEnd)
    && Increasing(d.projects, ProjectId) && IdsWithin(d.projects, ProjectId, teamsEnd, workEnd)
    && Increasing(d.sections, SectionId) && IdsWithin(d.sections, SectionId, teamsEnd, workEnd)
    && Increasing(d.tasks, TaskId) && IdsWithin(d.tasks, TaskId, workEnd, tasksEnd)
    && Increasing(d.comments, CommentId) && IdsWithin(d.comments, CommentId, tasksEnd, d.field.id)
    && |d.tags| == 2 && d.field.id < d.tags[0].id < d.tags[1].id
  }

  /** Ids numbered in increasing order, with the key facts of the rows, make every
      primary key hold. */
  lemma NumberingKeys(d: Dataset, now: Day, usersEnd: Id, teamsEnd: Id, workEnd: Id, tasksEnd: Id)
    requires Numbered(d, usersEnd, teamsEnd, workEnd, tasksEnd) && Rows(d, now)
    ensures PrimaryKeysHold(d)
  {
    IncreasingIsUnique(d.users, UserId);
    IncreasingIsUnique(d.teams, TeamId);
    IncreasingIsUnique(d.projects, ProjectId);
    IncreasingIsUnique(d.sections, SectionId);
    IncreasingIsUnique(d.tasks, TaskId);
    IncreasingIsUnique(d.comments, CommentId);
    assert TagId(d.tags[0]) < TagId(d.tags[1]);
  }

  /** With ids drawn from one counter, stage after stage (organization 0, users from 1,
      then teams, projects with their sections, tasks, comments, the field and the tags),
      every resolved reference names a row numbered before the referencing one. */
  lemma NumberingPrecedes(d: Dataset, usersEnd: Id, teamsEnd: Id, workEnd: Id, tasksEnd: Id)
    requires SectionLayout(d.sections, d.projects) && ReferencesResolve(d)
    requires Numbered(d, usersEnd, teamsEnd, workEnd, tasksEnd)
    ensures ReferencesPrecede(d)
  {
    forall k | 0 <= k < |d.projects|
      ensures d.projects[k].teamId < d.projects[k].id
    {
      ResolvedBelow(d.teams, TeamId, d.projects[k].teamId, usersEnd, teamsEnd);
    }
    forall k | 0 <= k < |d.sections|
      ensures d.sections[k].projectId < d.sections[k].id
    {
      LayoutSectionRow(d.sections, d.projects, k);
    }
    forall k | 0 <= k < |d.tasks|
      ensures && d.tasks[k].projectId < d.tasks[k].id && d.tasks[k].sectionId < d.tasks[k].id
              && (d.tasks[k].assigneeId.Some? ==> d.tasks[k].assigneeId.value < d.tasks[k].id)
    {
      var t := d.tasks[k];
      assert TaskResolves(t, d);
      ResolvedBelow(d.projects, ProjectId, t.projectId, teamsEnd, workEnd);
      var s :| 0 <= s < |d.sections| && d.sections[s].id == t.sectionId && d.sections[s].projectId == t.projectId;
      assert SectionId(d.sections[s]) == t.sectionId;
      if t.assigneeId.Some? {
        ResolvedBelow(d.users, UserId, t.assigneeId.value, 1, usersEnd);
      }
    }
    forall k | 0 <= k < |d.comments|
      ensures d.comments[k].taskId < d.comments[k].id && d.comments[k].authorId < d.comments[k].id
    {
      ResolvedBelow(d.tasks, TaskId, d.comments[k].taskId, workEnd, tasksEnd);
      ResolvedBelow(d.users, UserId, d.comments[k].authorId, 1, usersEnd);
    }
  }

  /** Rows numbered in increasing order have unique ids. */
  lemma IncreasingIsUnique<T>(xs: seq<T>, key: T -> Id)
    requires Increasing(xs, key)
    ensures Unique(xs, key)
  {
  }

  /** A reference that resolves into rows numbered in [lo, hi) is below hi. */
  lemma ResolvedBelow<T>(xs: seq<T>, key: T -> Id, x: Id, lo: int, hi: int)
    requires Has(xs, key, x) && IdsWithin(xs, key, lo, hi)
    ensures lo <= x < hi
  {
  }

  /** The first stages: the organization (id 0), users numbered from 1, teams, and the
      memberships, which fail only where `random.sample` meets fewer teams than drawn. */
  method GeneratePeople(numUsers: int, numTeams: int, now: Day)
    returns (organization: Organization, users: seq<User>, teams: seq<Team>,
             memberships: Result<seq<TeamMembership>>, usersEnd: Id, teamsEnd: Id)
    ensures memberships.Failure? ==>
              memberships.error == SampleLargerThanPopulation && 0 < numUsers && SliceEnd(numTeams, |TeamNames|) < 3
    ensures 0 < numUsers && SliceEnd(numTeams, |TeamNames|) == 0 ==> memberships.Failure?
    ensures |users| == (if numUsers < 0 then 0 else numUsers) && |teams| == SliceEnd(numTeams, |TeamNames|)
    ensures memberships.Success? ==> PeopleRows(organization, users, teams, memberships.value, now)
    ensures memberships.Success? ==> |users| <= |memberships.value| <= 3 * |users|
    ensures organization.id == 0 && 1 <= usersEnd <= teamsEnd
    ensures Increasing(users, UserId) && IdsWithin(users, UserId, 1, usersEnd)
    ensures Increasing(teams, TeamId) && IdsWithin(teams, TeamId, usersEnd, teamsEnd)
  {
    var orgCreated := RandomPastDate(now, OrganizationWindow);
    organization := Organization(0, OrganizationName, orgCreated);
    users, usersEnd := GenerateUsers(organization.id, numUsers, now, 1);
    teams, teamsEnd := GenerateTeams(organization.id, numTeams, now, usersEnd);
    IncreasingIsUnique(users, UserId);
    IncreasingIsUnique(teams, TeamId);
    memberships := GenerateMemberships(users, teams);
  }

  /** The work stages: projects with their sections, then tasks, which fail only where
      `random.choice` meets an empty list of users. */
  method GenerateWork(teams: seq<Team>, users: seq<User>, now: Day, next: Id)
    returns (projects: seq<Project>, sections: seq<Section>, tasks: Result<seq<Task>>, workEnd: Id, next': Id)
    ensures tasks.Failure? ==> tasks.error == EmptySequence && users == [] && 0 < |teams|
    ensures tasks.Success? ==> WorkRows(teams, users, projects, sections, tasks.value, now)
    ensures tasks.Success? ==> TaskMin * |projects| <= |tasks.value| <= TaskMax * |projects|
    ensures next <= workEnd && (tasks.Success? ==> workEnd <= next')
    ensures Increasing(projects, ProjectId) && IdsWithin(projects, ProjectId, next, workEnd)
    ensures Increasing(sections, SectionId) && IdsWithin(sections, SectionId, next, workEnd)
    ensures tasks.Success? ==> Increasing(tasks.value, TaskId) && IdsWithin(tasks.value, TaskId, workEnd, next')
  {
    projects, sections, workEnd := GenerateProjects(teams, now, next);
    IncreasingIsUnique(projects, ProjectId);
    forall p | 0 <= p < |projects|
      ensures SectionIdsOf(sections, projects[p].id) != []
    {
      LayoutGivesSections(sections, projects, p);
    }
    tasks, next' := GenerateTasks(projects, sections, users, now, workEnd);
  }

  /** The tables the annotation stages fill. */
  datatype AnnotationTables = AnnotationTables(comments: seq<Comment>, field: CustomFieldDefinition,
                                               values: seq<CustomFieldValue>, tags: seq<Tag>,
                                               taskTags: seq<TaskTag>)

  /** The annotation stages: comments, which fail only where `random.choice` meets an
      empty list of users, and only after them the Priority field and its values, then the
      tags and their links. A failure leaves none of the later tables built. */
  method GenerateAnnotations(organization: Organization, tasks: seq<Task>, users: seq<User>, next: Id)
    returns (r: Result<AnnotationTables>)
    ensures r.Failure? ==> r.error == EmptySequence && users == [] && 0 < |tasks|
    ensures r.Success? && Unique(tasks, TaskId) ==>
              AnnotationRows(organization, users, tasks, r.value.comments, r.value.field, r.value.values,
                             r.value.tags, r.value.taskTags)
    ensures r.Success? ==>
              |r.value.comments| <= 3 * |tasks| && |r.value.values| <= |tasks| && |r.value.taskTags| <= |tasks|
    ensures r.Success? ==>
              && Increasing(r.value.comments, CommentId)
              && IdsWithin(r.value.comments, CommentId, next, r.value.field.id)
              && next <= r.value.field.id
    ensures r.Success? ==> |r.value.tags| == 2 && r.value.field.id < r.value.tags[0].id < r.value.tags[1].id
  {
    var comments, fieldNext := GenerateComments(tasks, users, next);
    if comments.Failure? {
      return Failure(comments.error);
    }
    var field, values, tagsNext := GeneratePriorityValues(tasks, organization.id, fieldNext);
    var tags, taskTags, tagsEnd := GenerateTags(tasks, organization.id, tagsNext);
    r := Success(AnnotationTables(comments.value, field, values, tags, taskTags));
  }

  /** The script end to end, with numUsers and numTeams in place of NUM_USERS and
      NUM_TEAMS. A run fails only where `random.sample` meets fewer than three teams while
      there are users, or where `random.choice` meets an empty list of users while there
      are tasks; with users and no team at all it surely fails. */
  method Generate(numUsers: int, numTeams: int, now: Day) returns (r: Result<Dataset>)
    ensures r.Failure? ==>
              || (r.error == SampleLargerThanPopulation && 0 < numUsers && SliceEnd(numTeams, |TeamNames|) < 3)
              || (r.error == EmptySequence && numUsers <= 0 && 0 < SliceEnd(numTeams, |TeamNames|))
    ensures 0 < numUsers && SliceEnd(numTeams, |TeamNames|) == 0 ==> r.Failure?
    ensures r.Success? ==> Sizes(r.value, numUsers, numTeams) && Totals(r.value) && Rows(r.value, now)
    ensures r.Success? ==> PrimaryKeysHold(r.value) && ReferencesResolve(r.value) && ReferencesPrecede(r.value)
  {
    var organization, users, teams, memberships, usersEnd, teamsEnd := GeneratePeople(numUsers, numTeams, now);
    if memberships.Failure? {
      return Failure(memberships.error);
    }
    var projects, sections, tasks, workEnd, tasksEnd := GenerateWork(teams, users, now, teamsEnd);
    if tasks.Failure? {
      return Failure(tasks.error);
    }
    IncreasingIsUnique(tasks.value, TaskId);
    var annotations := GenerateAnnotations(organization, tasks.value, users, tasksEnd);
    if annotations.Failure? {
      return Failure(annotations.error);
    }
    var a := annotations.value;
    var d := Dataset(organization, users, teams, memberships.value, projects, sections, tasks.value,
                     a.comments, a.field, a.values, a.tags, a.taskTags);
    assert Rows(d, now) && Totals(d);
    assert Numbered(d, usersEnd, teamsEnd, workEnd, tasksEnd);
    NumberingKeys(d, now, usersEnd, teamsEnd, workEnd, tasksEnd);
    RowsResolve(d, now);
    NumberingPrecedes(d, usersEnd, teamsEnd, workEnd, tasksEnd);
    r := Success(d);
  }

  /** The script as configured (500 users, 10 teams): the run cannot fail, and it builds
      30 projects, 150 sections and 300 to 750 tasks. */
  method Run(now: Day) returns (r: Result<Dataset>)
    ensures r.Success?
    ensures r.Success? ==> |r.value.users| == 500 && |r.value.teams| == 10
    ensures r.Success? ==> |r.value.projects| == 30 && |r.value.sections| == 150
    ensures r.Success? ==> 300 <= |r.value.tasks| <= 750
    ensures r.Success? ==> Rows(r.value, now) && PrimaryKeysHold(r.value) && ReferencesResolve(r.value)
  {
    r := Generate(NumUsers, NumTeams, now);
  }
}
