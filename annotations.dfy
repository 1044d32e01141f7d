/** The last stages of the script, which annotate the tasks: comments, the "Priority"
    custom field and its values, and the two tags with their links
    (generate_asana_data.py:240-291). */
module Annotations {
  import opened Records
  import opened Oracles

  /** A comment on task, by an existing user, with a canned text, written 0 to 10 days
      after the task was created. */
  ghost predicate CommentOf(c: Comment, task: Task, users: seq<User>) {
    && c.taskId == task.id
    && Has(users, UserId, c.authorId)
    && c.content in CannedComments
    && task.createdAt <= c.createdAt <= task.createdAt + 10
  }

  /** A comment row: it is a comment of one of the tasks. */
  ghost predicate CommentRow(c: Comment, tasks: seq<Task>, users: seq<User>) {
    exists i :: 0 <= i < |tasks| && CommentOf(c, tasks[i], users)
  }

  /** The comments of one task: with probability 0.4 a thread of 1 to 3 comments, each
      by a user picked with `random.choice`, which raises IndexError when there are no
      users. */
  method GenerateTaskComments(task: Task, users: seq<User>, next: Id) returns (r: Result<seq<Comment>>, next': Id)
    ensures r.Failure? ==> r.error == EmptySequence && users == []
    ensures r.Success? ==> |r.value| <= 3 && next' == next + |r.value|
    ensures r.Success? ==> Increasing(r.value, CommentId) && IdsWithin(r.value, CommentId, next, next')
    ensures r.Success? ==> forall k :: 0 <= k < |r.value| ==> CommentOf(r.value[k], task, users)
  {
    var thread: seq<Comment> := [];
    next' := next;
    var commented := Chance(0.4);
    if commented {
      var count := RandInt(1, 3);
      for i := 0 to count
        invariant |thread| == i && next' == next + i
        invariant Increasing(thread, CommentId) && IdsWithin(thread, CommentId, next, next')
        invariant forall k :: 0 <= k < i ==> CommentOf(thread[k], task, users)
      {
        var author := Choice(users);
        if author.Failure? {
          return Failure(author.error), next';
        }
        assert exists u :: 0 <= u < |users| && users[u] == author.value;
        var content := ChoiceOf(CannedComments);
        var offset := RandInt(0, 10);
        thread := thread + [Comment(next', task.id, author.value.id, content, task.createdAt + offset)];
        next' := next' + 1;
      }
    }
    r := Success(thread);
  }

  /** What the comments loop has built after the first i tasks. */
  ghost predicate CommentsBuilt(comments: seq<Comment>, tasks: seq<Task>, users: seq<User>, i: nat) {
    && (forall k :: 0 <= k < |comments| ==> CommentRow(comments[k], tasks, users))
    && (Unique(tasks, TaskId) ==> CountsPerParent(comments, CommentTask, tasks, TaskId, i, 0, 3))
  }

  /** One turn of the comments loop keeps CommentsBuilt. */
  lemma CommentsBuiltStep(comments: seq<Comment>, thread: seq<Comment>, tasks: seq<Task>, users: seq<User>, i: nat)
    requires i < |tasks| && CommentsBuilt(comments, tasks, users, i)
    requires |thread| <= 3
    requires forall k :: 0 <= k < |thread| ==> CommentOf(thread[k], tasks[i], users)
    ensures CommentsBuilt(comments + thread, tasks, users, i + 1)
  {
    var all := comments + thread;
    forall k | 0 <= k < |all|
      ensures CommentRow(all[k], tasks, users)
    {
      if k < |comments| {
        assert all[k] == comments[k];
      } else {
        assert all[k] == thread[k - |comments|];
      }
    }
    if Unique(tasks, TaskId) {
      forall k | 0 <= k < |thread|
        ensures CommentTask(thread[k]) == TaskId(tasks[i])
      {
      }
      CountsPerParentStep(comments, thread, CommentTask, tasks, TaskId, i, 0, 3);
    }
  }

  /** The comments loop over all tasks. It can fail only when there are no users. */
  method GenerateComments(tasks: seq<Task>, users: seq<User>, next: Id) returns (r: Result<seq<Comment>>, next': Id)
    ensures r.Failure? ==> r.error == EmptySequence && users == [] && 0 < |tasks|
    ensures r.Success? ==> |r.value| <= 3 * |tasks| && next' == next + |r.value|
    ensures r.Success? ==> Increasing(r.value, CommentId) && IdsWithin(r.value, CommentId, next, next')
    ensures r.Success? ==> forall k :: 0 <= k < |r.value| ==> CommentRow(r.value[k], tasks, users)
    ensures r.Success? && Unique(tasks, TaskId) ==>
              forall i :: 0 <= i < |tasks| ==> Count(r.value, CommentTask, tasks[i].id) <= 3
  {
    var comments: seq<Comment> := [];
    next' := next;
    for i := 0 to |tasks|
      invariant |comments| <= 3 * i && next' == next + |comments|
      invariant Increasing(comments, CommentId) && IdsWithin(comments, CommentId, next, next')
      invariant CommentsBuilt(comments, tasks, users, i)
    {
      var thread, after := GenerateTaskComments(tasks[i], users, next');
      if thread.Failure? {
        return Failure(thread.error), next';
      }
      IncreasingConcat(comments, thread.value, CommentId, next, next', after);
      CommentsBuiltStep(comments, thread.value, tasks, users, i);
      comments, next' := comments + thread.value, after;
    }
    r := Success(comments);
    if Unique(tasks, TaskId) {
      forall i | 0 <= i < |tasks|
        ensures Count(comments, CommentTask, tasks[i].id) <= 3
      {
        assert TaskId(tasks[i]) == tasks[i].id;
      }
    }
  }

  /** A value of field fieldId: one of the priority options, on an existing task. */
  ghost predicate ValueRow(v: CustomFieldValue, tasks: seq<Task>, fieldId: Id) {
    && v.fieldId == fieldId
    && v.value in PriorityOptions
    && Has(tasks, TaskId, v.taskId)
  }

  /** What the priority loop has built after the first i tasks: at most one value for
      each of them and none for the later ones. */
  ghost predicate ValuesBuilt(values: seq<CustomFieldValue>, tasks: seq<Task>, fieldId: Id, i: nat) {
    && (forall k :: 0 <= k < |values| ==> ValueRow(values[k], tasks, fieldId))
    && (Unique(tasks, TaskId) ==> CountsPerParent(values, ValueTask, tasks, TaskId, i, 0, 1))
  }

  /** One turn of the priority loop keeps ValuesBuilt. */
  lemma ValuesBuiltStep(values: seq<CustomFieldValue>, block: seq<CustomFieldValue>, tasks: seq<Task>,
                        fieldId: Id, i: nat)
    requires i < |tasks| && ValuesBuilt(values, tasks, fieldId, i)
    requires |block| <= 1
    requires forall k :: 0 <= k < |block| ==>
               block[k].taskId == tasks[i].id && block[k].fieldId == fieldId && block[k].value in PriorityOptions
    ensures ValuesBuilt(values + block, tasks, fieldId, i + 1)
  {
    var all := values + block;
    forall k | 0 <= k < |all|
      ensures ValueRow(all[k], tasks, fieldId)
    {
      if k < |values| {
        assert all[k] == values[k];
      } else {
        assert all[k] == block[k - |values|];
        assert TaskId(tasks[i]) == all[k].taskId;
      }
    }
    if Unique(tasks, TaskId) {
      forall k | 0 <= k < |block|
        ensures ValueTask(block[k]) == TaskId(tasks[i])
      {
      }
      CountsPerParentStep(values, block, ValueTask, tasks, TaskId, i, 0, 1);
    }
  }

  /** At most one row per task: under unique task ids, the rows' task ids are unique. */
  lemma AtMostOnePerTask<T>(rows: seq<T>, taskOf: T -> Id, tasks: seq<Task>)
    requires forall k :: 0 <= k < |rows| ==> Has(tasks, TaskId, taskOf(rows[k]))
    requires CountsPerParent(rows, taskOf, tasks, TaskId, |tasks|, 0, 1)
    ensures Unique(rows, taskOf)
  {
    forall k | 0 <= k < |rows|
      ensures Count(rows, taskOf, taskOf(rows[k])) <= 1
    {
      var j :| 0 <= j < |tasks| && TaskId(tasks[j]) == taskOf(rows[k]);
    }
    AtMostOneIsUnique(rows, taskOf);
  }

  /** The "Priority" enum field of the organization, and the loop that gives each task,
      with probability 0.5, one of the values Low, Medium and High. */
  method GeneratePriorityValues(tasks: seq<Task>, orgId: Id, next: Id)
    returns (field: CustomFieldDefinition, values: seq<CustomFieldValue>, next': Id)
    ensures field == CustomFieldDefinition(next, orgId, PriorityFieldName, PriorityFieldType)
    ensures next' == next + 1
    ensures |values| <= |tasks|
    ensures forall k :: 0 <= k < |values| ==> ValueRow(values[k], tasks, field.id)
    ensures Unique(tasks, TaskId) ==> Unique(values, ValueTask) && Unique(values, ValueKey)
  {
    field := CustomFieldDefinition(next, orgId, PriorityFieldName, PriorityFieldType);
    next' := next + 1;
    values := [];
    for i := 0 to |tasks|
      invariant |values| <= i
      invariant ValuesBuilt(values, tasks, field.id, i)
    {
      var block: seq<CustomFieldValue> := [];
      var valued := Chance(0.5);
      if valued {
        var option := ChoiceOf(PriorityOptions);
        block := [CustomFieldValue(tasks[i].id, field.id, option)];
      }
      ValuesBuiltStep(values, block, tasks, field.id, i);
      values := values + block;
    }
    if Unique(tasks, TaskId) {
      AtMostOnePerTask(values, ValueTask, tasks);
      assert forall a, b :: 0 <= a < b < |values| ==> ValueTask(values[a]) != ValueTask(values[b]);
    }
  }

  /** A tag link: an existing task, tagged with tagId. */
  ghost predicate LinkRow(l: TaskTag, tasks: seq<Task>, tagId: Id) {
    l.tagId == tagId && Has(tasks, TaskId, l.taskId)
  }

  /** What the tagging loop has built after the first i tasks. */
  ghost predicate LinksBuilt(links: seq<TaskTag>, tasks: seq<Task>, tagId: Id, i: nat) {
    && (forall k :: 0 <= k < |links| ==> LinkRow(links[k], tasks, tagId))
    && (Unique(tasks, TaskId) ==> CountsPerParent(links, LinkTask, tasks, TaskId, i, 0, 1))
  }

  /** One turn of the tagging loop keeps LinksBuilt. */
  lemma LinksBuiltStep(links: seq<TaskTag>, block: seq<TaskTag>, tasks: seq<Task>, tagId: Id, i: nat)
    requires i < |tasks| && LinksBuilt(links, tasks, tagId, i)
    requires |block| <= 1
    requires forall k :: 0 <= k < |block| ==> block[k] == TaskTag(tasks[i].id, tagId)
    ensures LinksBuilt(links + block, tasks, tagId, i + 1)
  {
    var all := links + block;
    forall k | 0 <= k < |all|
      ensures LinkRow(all[k], tasks, tagId)
    {
      if k < |links| {
        assert all[k] == links[k];
      } else {
        assert all[k] == block[k - |links|];
        assert TaskId(tasks[i]) == all[k].taskId;
      }
    }
    if Unique(tasks, TaskId) {
      forall k | 0 <= k < |block|
        ensures LinkTask(block[k]) == TaskId(tasks[i])
      {
      }
      CountsPerParentStep(links, block, LinkTask, tasks, TaskId, i, 0, 1);
    }
  }

  /** The tags "urgent" and "blocked" of the organization, and the loop that links each
      task, with probability 0.3, to "urgent". No task is ever linked to "blocked". */
  method GenerateTags(tasks: seq<Task>, orgId: Id, next: Id) returns (tags: seq<Tag>, links: seq<TaskTag>, next': Id)
    ensures tags == [Tag(next, orgId, UrgentTagName), Tag(next + 1, orgId, BlockedTagName)]
    ensures next' == next + 2
    ensures |links| <= |tasks|
    ensures forall k :: 0 <= k < |links| ==> LinkRow(links[k], tasks, tags[0].id) && links[k].tagId != tags[1].id
    ensures Unique(tasks, TaskId) ==> Unique(links, LinkTask) && Unique(links, LinkKey)
  {
    var urgent := Tag(next, orgId, UrgentTagName);
    var blocked := Tag(next + 1, orgId, BlockedTagName);
    tags, next' := [urgent, blocked], next + 2;
    links := [];
    for i := 0 to |tasks|
      invariant |links| <= i
      invariant LinksBuilt(links, tasks, urgent.id, i)
    {
      var block: seq<TaskTag> := [];
      var tagged := Chance(0.3);
      if tagged {
        block := [TaskTag(tasks[i].id, urgent.id)];
      }
      LinksBuiltStep(links, block, tasks, urgent.id, i);
      links := links + block;
    }
    if Unique(tasks, TaskId) {
      AtMostOnePerTask(links, LinkTask, tasks);
      assert forall a, b :: 0 <= a < b < |links| ==> LinkTask(links[a]) != LinkTask(links[b]);
    }
  }
}
