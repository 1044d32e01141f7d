/** The rows the generator builds, one datatype per table, with the script's constants
    and the counting and uniqueness vocabulary the other modules state their
    properties in. Identifiers are naturals handed out by a counter; timestamps are
    whole day numbers. */
module Records {

  /** A row identifier (a UUID string in the script). */
  type Id = nat

  /** A timestamp, as a day number. */
  type Day = int

  datatype Option<T> = None | Some(value: T)

  datatype Organization = Organization(id: Id, name: string, createdAt: Day)

  datatype User = User(id: Id, organizationId: Id, fullName: string, email: string,
                       role: string, createdAt: Day)

  datatype Team = Team(id: Id, organizationId: Id, name: string, createdAt: Day)

  /** Keyed by the pair (teamId, userId). */
  datatype TeamMembership = TeamMembership(teamId: Id, userId: Id, joinedAt: Day)

  datatype Project = Project(id: Id, teamId: Id, name: string, status: string, createdAt: Day)

  datatype Section = Section(id: Id, projectId: Id, name: string, position: int)

  datatype Task = Task(id: Id, projectId: Id, sectionId: Id, parentTaskId: Option<Id>,
                       name: string, description: Option<string>, assigneeId: Option<Id>,
                       dueDate: Option<Day>, completed: bool, createdAt: Day,
                       completedAt: Option<Day>)

  datatype Comment = Comment(id: Id, taskId: Id, authorId: Id, content: string, createdAt: Day)

  datatype CustomFieldDefinition = CustomFieldDefinition(id: Id, organizationId: Id,
                                                         name: string, fieldType: string)

  /** Keyed by the pair (taskId, fieldId). */
  datatype CustomFieldValue = CustomFieldValue(taskId: Id, fieldId: Id, value: string)

  datatype Tag = Tag(id: Id, organizationId: Id, name: string)

  /** Keyed by the pair (taskId, tagId). */
  datatype TaskTag = TaskTag(taskId: Id, tagId: Id)

  // Configuration of the script.
  const NumUsers: int := 500
  const NumTeams: int := 10
  const ProjectsPerTeam: nat := 3
  const TaskMin: nat := 10
  const TaskMax: nat := 25

  // Look-back windows, in days, of the past-date draws.
  const OrganizationWindow: nat := 2000
  const UserWindow: nat := 1500
  const TeamWindow: nat := 1200
  const ProjectWindow: nat := 900
  const TaskWindow: nat := 400

  const OrganizationName := "Acme SaaS Inc."
  const Roles := ["admin", "member", "guest"]
  const RoleWeights: seq<real> := [0.05, 0.9, 0.05]
  const TeamNames := ["Backend Engineering", "Frontend Engineering", "Infrastructure",
                      "Product", "Design", "Marketing", "Sales",
                      "Operations", "Finance", "HR"]
  const MembershipCounts: seq<int> := [1, 2, 3]
  const MembershipCountWeights: seq<real> := [0.7, 0.25, 0.05]
  const SectionNames := ["Backlog", "To Do", "In Progress", "Review", "Done"]
  const ProjectStatuses := ["active", "completed", "archived"]
  const StatusWeights: seq<real> := [0.7, 0.2, 0.1]
  const CannedComments := ["Looks good.", "Blocked on dependency.", "Please review.", "Completed."]
  const PriorityFieldName := "Priority"
  const PriorityFieldType := "enum"
  const PriorityOptions := ["Low", "Medium", "High"]
  const UrgentTagName := "urgent"
  const BlockedTagName := "blocked"

  // Key projections, passed to the generic Count, Unique and Increasing below.
  function UserId(u: User): Id { u.id }
  function TeamId(t: Team): Id { t.id }
  function ProjectId(p: Project): Id { p.id }
  function SectionId(s: Section): Id { s.id }
  function TaskId(t: Task): Id { t.id }
  function CommentId(c: Comment): Id { c.id }
  function FieldId(f: CustomFieldDefinition): Id { f.id }
  function TagId(t: Tag): Id { t.id }
  function MembershipUser(m: TeamMembership): Id { m.userId }
  function MembershipKey(m: TeamMembership): (Id, Id) { (m.teamId, m.userId) }
  function TaskProject(t: Task): Id { t.projectId }
  function CommentTask(c: Comment): Id { c.taskId }
  function ValueTask(v: CustomFieldValue): Id { v.taskId }
  function ValueKey(v: CustomFieldValue): (Id, Id) { (v.taskId, v.fieldId) }
  function LinkTask(l: TaskTag): Id { l.taskId }
  function LinkKey(l: TaskTag): (Id, Id) { (l.taskId, l.tagId) }

  /** No two rows of xs share a key: the table's primary key holds. */
  ghost predicate Unique<T, K>(xs: seq<T>, key: T -> K) {
    forall i, j :: 0 <= i < j < |xs| ==> key(xs[i]) != key(xs[j])
  }

  /** Ids strictly increase along xs: the rows were numbered in insertion order. */
  ghost predicate Increasing<T>(xs: seq<T>, key: T -> Id) {
    forall i, j :: 0 <= i < j < |xs| ==> key(xs[i]) < key(xs[j])
  }

  /** Every id of xs was drawn from the counter between lo (inclusive) and hi (exclusive). */
  ghost predicate IdsWithin<T>(xs: seq<T>, key: T -> Id, lo: int, hi: int) {
    forall i :: 0 <= i < |xs| ==> lo <= key(xs[i]) < hi
  }

  /** Some row of xs has key x: a reference to x resolves in xs. */
  ghost predicate Has<T>(xs: seq<T>, key: T -> Id, x: Id) {
    exists i :: 0 <= i < |xs| && key(xs[i]) == x
  }

  /** The number of rows of xs whose key is x. */
  function Count<T>(xs: seq<T>, key: T -> Id, x: Id): (n: nat)
    ensures n <= |xs|
    ensures n == 0 <==> !Has(xs, key, x)
  {
    if xs == [] then 0
    else
      var n := Count(xs[..|xs| - 1], key, x) + (if key(xs[|xs| - 1]) == x then 1 else 0);
      assert forall i :: 0 <= i < |xs| - 1 ==> xs[..|xs| - 1][i] == xs[i];
      n
  }

  lemma CountAppend<T>(xs: seq<T>, y: T, key: T -> Id, x: Id)
    ensures Count(xs + [y], key, x) == Count(xs, key, x) + (if key(y) == x then 1 else 0)
  {
  }

  lemma {:induction false} CountConcat<T>(xs: seq<T>, ys: seq<T>, key: T -> Id, x: Id)
    ensures Count(xs + ys, key, x) == Count(xs, key, x) + Count(ys, key, x)
    decreases |ys|
  {
    if ys != [] {
      var init, last := ys[..|ys| - 1], ys[|ys| - 1];
      assert ys == init + [last];
      assert xs + ys == (xs + init) + [last];
      CountConcat(xs, init, key, x);
      CountAppend(xs + init, last, key, x);
      CountAppend(init, last, key, x);
    } else {
      assert xs + ys == xs;
    }
  }

  /** When every row of ys has key x, all of ys is counted. */
  lemma {:induction false} CountAll<T>(ys: seq<T>, key: T -> Id, x: Id)
    requires forall k :: 0 <= k < |ys| ==> key(ys[k]) == x
    ensures Count(ys, key, x) == |ys|
    decreases |ys|
  {
    if ys != [] {
      var init := ys[..|ys| - 1];
      assert ys == init + [ys[|ys| - 1]];
      CountAll(init, key, x);
      CountAppend(init, ys[|ys| - 1], key, x);
    }
  }

  /** Two blocks of rows numbered one after the other stay numbered in order. */
  lemma IncreasingConcat<T>(xs: seq<T>, ys: seq<T>, key: T -> Id, lo: int, mid: int, hi: int)
    requires lo <= mid <= hi
    requires Increasing(xs, key) && IdsWithin(xs, key, lo, mid)
    requires Increasing(ys, key) && IdsWithin(ys, key, mid, hi)
    ensures Increasing(xs + ys, key) && IdsWithin(xs + ys, key, lo, hi)
  {
  }

  /** Child rows grouped by parent: each of the first i parents has between lo and hi
      rows of xs referencing it, and the later parents have none yet. */
  ghost predicate CountsPerParent<P, T>(xs: seq<T>, key: T -> Id, parents: seq<P>, pkey: P -> Id,
                                        i: nat, lo: nat, hi: nat)
  {
    && (forall j :: 0 <= j < i && j < |parents| ==> lo <= Count(xs, key, pkey(parents[j])) <= hi)
    && (forall j :: i <= j < |parents| ==> Count(xs, key, pkey(parents[j])) == 0)
  }

  /** Appending a block of lo to hi rows that all reference parent i moves the grouping on
      to parent i + 1, provided the parents' ids are unique. */
  lemma {:induction false} CountsPerParentStep<P, T>(xs: seq<T>, block: seq<T>, key: T -> Id,
                                                    parents: seq<P>, pkey: P -> Id, i: nat, lo: nat, hi: nat)
    requires Unique(parents, pkey) && i < |parents|
    requires CountsPerParent(xs, key, parents, pkey, i, lo, hi)
    requires lo <= |block| <= hi
    requires forall k :: 0 <= k < |block| ==> key(block[k]) == pkey(parents[i])
    ensures CountsPerParent(xs + block, key, parents, pkey, i + 1, lo, hi)
  {
    CountAll(block, key, pkey(parents[i]));
    forall l | 0 <= l < |parents|
      ensures Count(xs + block, key, pkey(parents[l]))
              == Count(xs, key, pkey(parents[l])) + (if l == i then |block| else 0)
    {
      CountConcat(xs, block, key, pkey(parents[l]));
      if l != i {
        assert pkey(parents[l]) != pkey(parents[i]);
        assert !Has(block, key, pkey(parents[l]));
      }
    }
  }

  /** When no key of xs is counted twice, the keys of xs are unique. */
  lemma AtMostOneIsUnique<T>(xs: seq<T>, key: T -> Id)
    requires forall k :: 0 <= k < |xs| ==> Count(xs, key, key(xs[k])) <= 1
    ensures Unique(xs, key)
  {
    forall i, j | 0 <= i < j < |xs|
      ensures key(xs[i]) != key(xs[j])
    {
      if key(xs[i]) == key(xs[j]) {
        CountedTwice(xs, key, i, j);
        assert false;
      }
    }
  }

  /** Two rows with the same key are both counted. */
  lemma CountedTwice<T>(xs: seq<T>, key: T -> Id, i: nat, j: nat)
    requires i < j < |xs| && key(xs[i]) == key(xs[j])
    ensures Count(xs, key, key(xs[j])) >= 2
  {
    var x := key(xs[j]);
    assert xs == xs[..j] + xs[j..];
    CountConcat(xs[..j], xs[j..], key, x);
    assert xs[..j][i] == xs[i] && xs[j..][0] == xs[j];
    assert Has(xs[..j], key, x) && Has(xs[j..], key, x);
  }
}
