# Asana seed-data generator, modelled in Dafny

`generate_asana_data.py` fills a twelve-table SQLite database with synthetic data for a
project-management product. It makes one organization, then 500 users and ten teams,
and joins each user to 1–3 distinct teams. Every team gets three projects, and every
project gets five fixed sections and 10–25 tasks. Finally tasks get comments, a
"Priority" custom-field value, and links to the "urgent" tag.

The model follows the script stage by stage. Each stage is a method with a loop, and the
loop invariants carry what the stage promises. Every random draw is a small oracle method
that can return any value its Python counterpart can. Together these prove what every
run of the script builds, whatever the draws:

- `Records` — one datatype per table, the script's constants, and a counting and
  uniqueness vocabulary (`Count`, `Unique`, `Has`, `Increasing`).
- `Oracles` — `chance`, `random.randint`, `random_past_date`, `random.choices`,
  `random.choice` and `random.sample`. Each is reduced to its support and to the
  exception it raises. `random.sample` raises `ValueError` when asked for more teams
  than exist. `random.choice` raises `IndexError` on an empty list.
- `People` — users, teams (the `team_names[:NUM_TEAMS]` slice), and memberships.
- `Work` — projects with their sections, then tasks.
- `Annotations` — comments, the Priority field and its values, the tags and task links.
- `Generator` — the whole run, and what the finished database satisfies: every primary
  key holds, every id column resolves, and every row references only rows numbered
  before it.

Ids come from a counter threaded through the stages in the script's order. The
organization gets 0 and users start at 1. Timestamps are whole day numbers measured
from one `now` parameter.

## Model

| member | source | states |
|---|---|---|
| Oracles.Chance | generate_asana_data.py:22-23 | `random.random() < p` never fires for p ≤ 0 and always fires for p ≥ 1 |
| Oracles.RandInt | generate_asana_data.py:218 | `random.randint` includes both ends |
| Oracles.RandomPastDate | generate_asana_data.py:19-20 | the date is between `days` days before now and now |
| Oracles.WeightedChoice | generate_asana_data.py:138 | `random.choices(...)[0]` is an option with a positive weight |
| Oracles.ChoiceOf | generate_asana_data.py:248-253 | `random.choice` on a non-empty list returns one of its elements |
| Oracles.Choice | generate_asana_data.py:224 | `random.choice` returns an element exactly when the list is non-empty; otherwise it raises IndexError |
| Oracles.Sample | generate_asana_data.py:170 | `random.sample` fails exactly when k < 0 or k exceeds the population; otherwise it returns k distinct positions inside it |
| People.GenerateUsers | generate_asana_data.py:131-140 | `range(count)` users, none for a negative count, all in the organization, each with a listed role and a date in the 1500-day window; ids increase |
| People.SliceEnd | generate_asana_data.py:154 | `team_names[:stop]` keeps exactly the positions before stop, counting a negative stop from the end of the list, and never runs past the list |
| People.GenerateTeams | generate_asana_data.py:147-160 | one team per name of `team_names[:count]`, in list order, so min(count, 10) teams for count ≥ 0; all in the organization with dates in the 1200-day window |
| People.JoinSampledTeams | generate_asana_data.py:170-175 | one membership per sampled team, for this user, joined 1–30 days after the user was created |
| People.BlockKeepsKeysUnique | generate_asana_data.py:54 | teams sampled without replacement, for a user with no earlier rows, keep (team_id, user_id) unique |
| People.MembershipsBuiltStep | generate_asana_data.py:168-175 | one user's turn keeps the rows well formed, gives that user 1–3 rows and keeps the key unique |
| People.GenerateMemberships | generate_asana_data.py:167-175 | fails only when there are users and fewer than 3 teams, and surely fails with users and no team; otherwise each user has 1–3 memberships to existing teams, joined 1–30 days after the user was created, with no (team, user) pair repeated |
| Work.NatToString | generate_asana_data.py:192 | the f-string digits of `i+1`: digits only, no leading zero, and reading them back gives the number |
| Work.GenerateSections | generate_asana_data.py:197-203 | five sections of the project, named in list order, each at position = its index |
| Work.GenerateTeamProjects | generate_asana_data.py:187-203 | exactly 3 projects named "<team> Initiative i+1" that reference the team, each followed by its 5 sections |
| Work.SectionLayoutStep | generate_asana_data.py:197-203 | appending one project and its five sections keeps every block of five attached to its project |
| Work.SectionLayoutConcat | generate_asana_data.py:186-203 | two laid-out runs of projects and sections concatenate to a laid-out run |
| Work.GenerateProjects | generate_asana_data.py:182-203 | 3 projects per team in team order (project k belongs to team k / 3, ordinal k mod 3 + 1); 5 × the project count sections laid out per project; ids increase |
| Work.SectionIdsOf | generate_asana_data.py:217 | an id is in the comprehension exactly when some section of that project has it |
| Work.LayoutGivesSections | generate_asana_data.py:217-224 | every generated project has section ids to choose from |
| Work.LayoutSectionRow | generate_asana_data.py:197-203 | every section belongs to an existing project numbered before it and has a listed name and a position in 0..4 |
| Work.GenerateTask | generate_asana_data.py:219-233 | a task of the project in one of its sections, with no parent and an existing assignee; completed_at present iff completed and then 2–20 days after creation; due date within −5..+30 days; IndexError only on an empty section or user list |
| Work.GenerateProjectTasks | generate_asana_data.py:218-233 | 10–25 such tasks, numbered in order |
| Work.TasksBuiltStep | generate_asana_data.py:216-233 | one project's turn keeps every task row resolved and gives that project 10–25 tasks |
| Work.GenerateTasks | generate_asana_data.py:215-233 | surely fails when a project has no sections and otherwise fails only without users; on success 10–25 tasks per project, 10·P–25·P in all, each a well-formed task of an existing project |
| Annotations.GenerateTaskComments | generate_asana_data.py:242-255 | 0–3 comments on the task, by existing users, with canned texts, written 0–10 days after the task |
| Annotations.CommentsBuiltStep | generate_asana_data.py:241-255 | one task's turn keeps comment rows resolved and gives that task at most 3 comments |
| Annotations.GenerateComments | generate_asana_data.py:240-255 | fails only with tasks but no users; on success at most 3 comments per task and at most 3·T in all, each on an existing task |
| Annotations.ValuesBuiltStep | generate_asana_data.py:268-273 | one task's turn gives that task at most one Priority value |
| Annotations.AtMostOnePerTask | generate_asana_data.py:105 | when every row names an existing task and no task is named by more than one row, no two rows share a task id; this is what makes (task_id, field_id) and (task_id, tag_id) unique |
| Annotations.GeneratePriorityValues | generate_asana_data.py:262-273 | one "Priority" enum field; at most one value per task, always Low, Medium or High, on an existing task; (task_id, field_id) unique |
| Annotations.LinksBuiltStep | generate_asana_data.py:286-291 | one task's turn gives that task at most one "urgent" link |
| Annotations.GenerateTags | generate_asana_data.py:275-291 | exactly the tags "urgent" and "blocked"; links go to "urgent" only, never "blocked", at most one per task, each on an existing task; (task_id, tag_id) unique |
| Generator.PeopleRowsResolve | generate_asana_data.py:125-175 | users and teams belong to the organization; every membership names an existing team and an existing user |
| Generator.WorkRowsResolve | generate_asana_data.py:182-233 | every project names an existing team, every section an existing project, and every task its project, a section of that same project and an existing assignee |
| Generator.AnnotationRowsResolve | generate_asana_data.py:240-291 | every comment, value and link names an existing task, user, field or tag |
| Generator.RowsResolve | generate_asana_data.py:125-291 | the rows of a run leave no dangling reference |
| Generator.NumberingPrecedes | generate_asana_data.py:125-291 | with ids from one counter in stage order, every reference names a row numbered before the referencing one |
| Generator.NumberingKeys | generate_asana_data.py:25-118 | ids numbered in increasing order make the single-column PRIMARY KEYs of the users, teams, projects, sections, tasks, comments and tags tables hold. The three composite keys come into it already proved in the rows: (team_id, user_id) by People.GenerateMemberships, and (task_id, field_id) and (task_id, tag_id) by Annotations.AtMostOnePerTask |
| Generator.GeneratePeople | generate_asana_data.py:125-175 | organization 0 and users numbered from 1, then teams; fails only with users and fewer than 3 teams, and surely fails with users and no team; otherwise the people rows hold and 1–3 memberships per user |
| Generator.GenerateWork | generate_asana_data.py:182-233 | every project has sections, so tasks fail only without users while there are teams; on success the work rows hold and 10·P–25·P tasks exist |
| Generator.GenerateAnnotations | generate_asana_data.py:240-291 | comments fail only with tasks but no users, and then no field, value or tag is built; on success, given unique task ids, the annotation rows hold, with at most 3·T comments and at most T values and T links |
| Generator.Generate | generate_asana_data.py:125-291 | fails only with users and fewer than 3 teams (ValueError) or with teams but no users (IndexError), and surely fails with users and no team; on success every table holds what the stages promise, the table totals add up, every primary key holds, every reference resolves and precedes |
| Generator.Run | generate_asana_data.py:8-11 | with 500 users and 10 teams the run cannot fail: 30 projects, 150 sections, 300–750 tasks, keys unique, references resolved |

## Left out

- SQLite: the connection, `executescript` of the schema, the inserts, `commit` and `close` are I/O. The schema's PRIMARY KEY clauses become the `Unique` facts of `Generator.PrimaryKeysHold`. What an exception leaves uncommitted is not modelled: a failed run is just a `Failure` value.
- Faker: names, emails, sentences and text are arbitrary strings.
- `uuid4`: ids are naturals from one counter, so collision freedom is by construction. Keys are stated per table. Distinctness of ids across tables is not stated.
- Probabilities, weights and `random.seed(42)`: each draw keeps only its support. `Oracles.Chance` is weaker than the source in that it says nothing about a probability strictly between 0 and 1. Which rows appear is therefore not determined, only what every possible run satisfies.
- `datetime.now()` is read once as the day number `now`, while the script reads the clock at every draw. Timestamps are whole days, so the time of day and the `.date()` truncation of the due date are not modelled.
- The final `print` is output only.
- Generator.Generate: the script's other constants stay fixed (3 projects per team, 10–25 tasks). Only the user and team counts are parameters. When there are teams but no users, failure is possible but not certain, because it depends on the 0.85 and 0.4 draws. The contract states the condition failure implies, not the converse.
- The past-date draw subtracts a whole number of days. This follows the code, not a uniform draw over the window.
