/** The first stages of the script: the users, the teams, and the memberships that join
    them (generate_asana_data.py:131-175). */
module People {
  import opened Records
  import opened Oracles

  /** What every user row carries: the one organization, a role of the fixed list, and a
      creation day within the user window. */
  ghost predicate UserRow(u: User, orgId: Id, now: Day) {
    && u.organizationId == orgId
    && u.role in Roles
    && now - UserWindow <= u.createdAt <= now
  }

  /** What every team row carries besides its name. */
  ghost predicate TeamRow(t: Team, orgId: Id, now: Day) {
    && t.organizationId == orgId
    && now - TeamWindow <= t.createdAt <= now
  }

  /** A membership joins an existing team to an existing user, 1 to 30 days after that
      user was created. */
  ghost predicate MembershipRow(m: TeamMembership, users: seq<User>, teams: seq<Team>) {
    && Has(teams, TeamId, m.teamId)
    && exists i :: 0 <= i < |users| && users[i].id == m.userId
                   && users[i].createdAt + 1 <= m.joinedAt <= users[i].createdAt + 30
  }

  /** The users loop: `count` users (none when `count` is negative, as with `range`),
      numbered from the counter in order. */
  method GenerateUsers(orgId: Id, count: int, now: Day, next: Id) returns (users: seq<User>, next': Id)
    ensures |users| == if count < 0 then 0 else count
    ensures next' == next + |users|
    ensures Increasing(users, UserId) && IdsWithin(users, UserId, next, next')
    ensures forall i :: 0 <= i < |users| ==> UserRow(users[i], orgId, now)
  {
    users, next' := [], next;
    var n := if count < 0 then 0 else count;
    for i := 0 to n
      invariant |users| == i && next' == next + i
      invariant Increasing(users, UserId) && IdsWithin(users, UserId, next, next')
      invariant forall k :: 0 <= k < i ==> UserRow(users[k], orgId, now)
    {
      var fullName: string := *;  // fake.name()
      var email: string := *;     // fake.email()
      assert 0.0 < RoleWeights[1];
      var role := WeightedChoice(Roles, RoleWeights);
      var createdAt := RandomPastDate(now, UserWindow);
      users := users + [User(next', orgId, fullName, email, role, createdAt)];
      next' := next' + 1;
    }
  }

  /** Python's rule for whether `xs[:stop]` keeps position i of a list of length len:
      it lies before stop, a negative stop counting from the end. */
  predicate SliceKeeps(stop: int, len: nat, i: nat) {
    if stop < 0 then i < len + stop else i < stop
  }

  /** The end index of the Python slice `xs[:stop]` on a list of length len: the slice is
      the prefix of exactly the positions the rule keeps. */
  function SliceEnd(stop: int, len: nat): (e: nat)
    ensures e <= len
    ensures forall i :: 0 <= i < len ==> (i < e <==> SliceKeeps(stop, len, i))
  {
    if stop < 0 then (if len + stop < 0 then 0 else len + stop)
    else if stop < len then stop
    else len
  }

  /** The teams loop over `team_names[:count]`: one team per name, in the order of the
      list, all in the one organization. */
  method GenerateTeams(orgId: Id, count: int, now: Day, next: Id) returns (teams: seq<Team>, next': Id)
    ensures |teams| == SliceEnd(count, |TeamNames|)
    ensures 0 <= count ==> |teams| == if count < |TeamNames| then count else |TeamNames|
    ensures forall i :: 0 <= i < |teams| ==> teams[i].name == TeamNames[i] && TeamRow(teams[i], orgId, now)
    ensures next' == next + |teams|
    ensures Increasing(teams, TeamId) && IdsWithin(teams, TeamId, next, next')
  {
    var names := TeamNames[..SliceEnd(count, |TeamNames|)];
    teams, next' := [], next;
    for i := 0 to |names|
      invariant |teams| == i && next' == next + i
      invariant forall k :: 0 <= k < i ==> teams[k].name == TeamNames[k] && TeamRow(teams[k], orgId, now)
      invariant Increasing(teams, TeamId) && IdsWithin(teams, TeamId, next, next')
    {
      var createdAt := RandomPastDate(now, TeamWindow);
      teams := teams + [Team(next', orgId, names[i], createdAt)];
      next' := next' + 1;
    }
  }

  /** The inner loop for one user: one membership per sampled team, each joined 1 to 30
      days after the user was created. */
  method JoinSampledTeams(user: User, teams: seq<Team>, picks: seq<nat>) returns (block: seq<TeamMembership>)
    requires forall k :: 0 <= k < |picks| ==> picks[k] < |teams|
    ensures |block| == |picks|
    ensures forall k :: 0 <= k < |block| ==>
              && block[k].teamId == teams[picks[k]].id
              && block[k].userId == user.id
              && user.createdAt + 1 <= block[k].joinedAt <= user.createdAt + 30
  {
    block := [];
    for j := 0 to |picks|
      invariant |block| == j
      invariant forall k :: 0 <= k < j ==>
                  && block[k].teamId == teams[picks[k]].id
                  && block[k].userId == user.id
                  && user.createdAt + 1 <= block[k].joinedAt <= user.createdAt + 30
    {
      var offset := RandInt(1, 30);
      block := block + [TeamMembership(teams[picks[j]].id, user.id, user.createdAt + offset)];
    }
  }

  /** Appending the block of one user keeps the (teamId, userId) key unique: no earlier
      row belongs to that user, and the block's teams were sampled without replacement. */
  lemma BlockKeepsKeysUnique(ms: seq<TeamMembership>, block: seq<TeamMembership>, user: User,
                             teams: seq<Team>, picks: seq<nat>)
    requires Unique(ms, MembershipKey) && Unique(teams, TeamId) && Distinct(picks)
    requires !Has(ms, MembershipUser, user.id)
    requires |block| == |picks|
    requires forall k :: 0 <= k < |block| ==>
               picks[k] < |teams| && block[k].teamId == teams[picks[k]].id && block[k].userId == user.id
    ensures Unique(ms + block, MembershipKey)
  {
  }

  /** What the memberships loop has built after the first i users: well-formed rows, 1 to
      3 of them for each of those users and none for the later ones, and no repeated
      (teamId, userId) key. */
  ghost predicate MembershipsBuilt(ms: seq<TeamMembership>, users: seq<User>, teams: seq<Team>, i: nat) {
    && (forall k :: 0 <= k < |ms| ==> MembershipRow(ms[k], users, teams))
    && (Unique(users, UserId) ==> CountsPerParent(ms, MembershipUser, users, UserId, i, 1, 3))
    && (Unique(users, UserId) && Unique(teams, TeamId) ==> Unique(ms, MembershipKey))
  }

  /** One turn of the memberships loop keeps MembershipsBuilt. */
  lemma MembershipsBuiltStep(ms: seq<TeamMembership>, users: seq<User>, teams: seq<Team>, i: nat,
                             picks: seq<nat>, block: seq<TeamMembership>)
    requires i < |users| && MembershipsBuilt(ms, users, teams, i)
    requires 1 <= |picks| <= 3 && Distinct(picks)
    requires |block| == |picks|
    requires forall k :: 0 <= k < |block| ==>
               && picks[k] < |teams|
               && block[k].teamId == teams[picks[k]].id
               && block[k].userId == users[i].id
               && users[i].createdAt + 1 <= block[k].joinedAt <= users[i].createdAt + 30
    ensures MembershipsBuilt(ms + block, users, teams, i + 1)
  {
    var ms' := ms + block;
    forall k | 0 <= k < |block|
      ensures MembershipRow(block[k], users, teams)
    {
      assert TeamId(teams[picks[k]]) == block[k].teamId;
    }
    assert forall k :: |ms| <= k < |ms'| ==> ms'[k] == block[k - |ms|];
    assert forall k :: 0 <= k < |ms'| ==> MembershipRow(ms'[k], users, teams);
    if Unique(users, UserId) {
      forall k | 0 <= k < |block|
        ensures MembershipUser(block[k]) == UserId(users[i])
      {
      }
      CountsPerParentStep(ms, block, MembershipUser, users, UserId, i, 1, 3);
      if Unique(teams, TeamId) {
        assert Count(ms, MembershipUser, UserId(users[i])) == 0;
        BlockKeepsKeysUnique(ms, block, users[i], teams, picks);
      }
    }
  }

  /** The memberships loop: each user draws 1, 2 or 3 and joins that many distinct teams
      picked by `random.sample`, which raises when fewer teams exist than were drawn. */
  method GenerateMemberships(users: seq<User>, teams: seq<Team>) returns (r: Result<seq<TeamMembership>>)
    ensures r.Failure? ==> r.error == SampleLargerThanPopulation && 0 < |users| && |teams| < 3
    ensures 0 < |users| && |teams| == 0 ==> r.Failure?
    ensures r.Success? ==> |users| <= |r.value| <= 3 * |users|
    ensures r.Success? ==> forall k :: 0 <= k < |r.value| ==> MembershipRow(r.value[k], users, teams)
    ensures r.Success? && Unique(users, UserId) ==>
              forall i :: 0 <= i < |users| ==> 1 <= Count(r.value, MembershipUser, users[i].id) <= 3
    ensures r.Success? && Unique(users, UserId) && Unique(teams, TeamId) ==> Unique(r.value, MembershipKey)
  {
    var ms: seq<TeamMembership> := [];
    for i := 0 to |users|
      invariant i <= |ms| <= 3 * i
      invariant 0 < i ==> 0 < |teams|
      invariant MembershipsBuilt(ms, users, teams, i)
    {
      assert 0.0 < MembershipCountWeights[0];
      var teamCount := WeightedChoice(MembershipCounts, MembershipCountWeights);
      assert 1 <= teamCount <= 3;
      var picked := Sample(|teams|, teamCount);
      if picked.Failure? {
        return Failure(picked.error);
      }
      var picks := picked.value;
      var block := JoinSampledTeams(users[i], teams, picks);
      MembershipsBuiltStep(ms, users, teams, i, picks, block);
      ms := ms + block;
    }
    r := Success(ms);
    if Unique(users, UserId) {
      forall i | 0 <= i < |users|
        ensures 1 <= Count(ms, MembershipUser, users[i].id) <= 3
      {
        assert UserId(users[i]) == users[i].id;
      }
    }
  }
}
