/** The teams dashboard: create a team, the signed-in user's team list, and the
    per-team labels. The team record and the creator's list update are shared with
    the create-team modal. */
module TeamsDashboard {
  import opened Seqs
  import opened Store

  const NOT_AUTHENTICATED_ALERT: string := "User not authenticated"
  const TEAM_CREATED_ALERT: string := "Team created successfully!"
  const TEAM_FAILED_ALERT: string := "Failed to create team."
  const ADMIN_LABEL: string := "Admin"
  const MEMBER_LABEL: string := "Member"

  /** The new team document: the entered name, the creator as admin, no members. */
  function NewTeam(name: string, creator: string): (t: Team)
    ensures t.name == name && t.admin == creator && t.employees == Some([])
  {
    Team(name, creator, Some([]))
  }

  /** The creator's user record after `teams: arrayUnion(teamId)`. */
  function AddTeam(u: User, teamId: string): (r: User)
    ensures r.teams.Some? && teamId in r.teams.value
    ensures u.teams.GetOr([]) <= r.teams.value
    ensures r.(teams := u.teams) == u
  {
    u.(teams := Some(ArrayUnion(u.teams, teamId)))
  }

  /** Every team id on a user's list names a stored team. Team creation keeps this; it is
      what makes a fresh team id absent from every list. */
  ghost predicate TeamListsResolve(users: map<string, User>, teams: map<string, Team>) {
    forall uid, i :: uid in users && 0 <= i < |users[uid].teams.GetOr([])| ==>
      users[uid].teams.GetOr([])[i] in teams
  }

  /** `teamsData.filter(doc => doc.exists()).map(...)` over the reads of `ids`: the teams
      that exist, in the order of `ids`. */
  function ProjectTeams(ids: seq<string>, teams: map<string, Team>): (r: seq<Doc<Team>>)
    ensures forall i :: 0 <= i < |r| ==> r[i].id in teams && r[i].data == teams[r[i].id]
    ensures Map(r, (d: Doc<Team>) => d.id) == Filter(ids, id => id in teams)
  {
    if ids == [] then []
    else if ids[0] in teams then [Doc(ids[0], teams[ids[0]])] + ProjectTeams(ids[1..], teams)
    else ProjectTeams(ids[1..], teams)
  }

  /** Every listed id that has a team document shows up in the projection. */
  lemma {:induction false} ProjectTeamsComplete(ids: seq<string>, teams: map<string, Team>, i: nat)
    requires i < |ids| && ids[i] in teams
    ensures Doc(ids[i], teams[ids[i]]) in ProjectTeams(ids, teams)
  {
    if i > 0 {
      ProjectTeamsComplete(ids[1..], teams, i - 1);
    }
  }

  /** `team.employees?.length || 0`. */
  function MemberCount(team: Team): (n: nat)
    ensures team.employees.Some? ==> n == |team.employees.value|
    ensures team.employees.None? ==> n == 0
  {
    |team.employees.GetOr([])|
  }

  /** "Admin" exactly for the team the viewer administers, "Member" otherwise (also with no viewer). */
  function RoleLabel(team: Team, userId: Option<string>): (tag: string)
    ensures tag == ADMIN_LABEL <==> userId == Some(team.admin)
    ensures tag == ADMIN_LABEL || tag == MEMBER_LABEL
  {
    if userId == Some(team.admin) then ADMIN_LABEL else MEMBER_LABEL
  }

  class TeamsDashboard {
    var teamName: string
    var userId: Option<string>
    var teams: seq<Doc<Team>>
    var loading: bool

    constructor ()
      ensures teamName == "" && userId == None && teams == [] && loading
    {
      teamName, userId, teams, loading := "", None, [], true;
    }

    /** `fetchUserTeams(uid)`: a missing user record leaves the list as it was; a missing
        `teams` field counts as empty; `readFails` stands for any failed read. */
    method FetchUserTeams(db: Db, uid: string, readFails: bool)
      modifies this`teams, this`loading
      ensures !loading
      ensures readFails || uid !in db.users ==> teams == old(teams)
      ensures !readFails && uid in db.users ==>
        teams == ProjectTeams(db.users[uid].teams.GetOr([]), db.teams)
    {
      loading := true;
      if !readFails && uid in db.users {
        var userTeamIds := db.users[uid].teams.GetOr([]);
        teams := ProjectTeams(userTeamIds, db.teams);
      }
      loading := false;
    }

    /** The auth-state observer: signing in loads the user's teams, signing out empties the list. */
    method OnAuthStateChanged(db: Db, user: Option<string>, readFails: bool)
      modifies this`userId, this`teams, this`loading
      ensures userId == user
      ensures user.None? ==> teams == [] && loading == old(loading)
      ensures user.Some? && !readFails && user.value in db.users ==>
        teams == ProjectTeams(db.users[user.value].teams.GetOr([]), db.teams) && !loading
      ensures user.Some? && (readFails || user.value !in db.users) ==> teams == old(teams) && !loading
    {
      userId := user;
      if user.Some? {
        FetchUserTeams(db, user.value, readFails);
      } else {
        teams := [];
      }
    }

    /** `handleSubmit`: write the team, add its id to the creator's list, then refresh.
        The list update fails when it fails remotely or the creator has no user record. */
    method HandleSubmit(db: Db, teamId: string, teamWriteFails: bool, userUpdateFails: bool,
                        refreshFails: bool)
      returns (alert: string)
      requires teamId !in db.teams
      modifies this, db`teams, db`users
      ensures old(userId).None? ==>
        alert == NOT_AUTHENTICATED_ALERT && unchanged(this) && db.teams == old(db.teams) && db.users == old(db.users)
      ensures old(userId).Some? && teamWriteFails ==>
        alert == TEAM_FAILED_ALERT && unchanged(this) && db.teams == old(db.teams) && db.users == old(db.users)
      ensures old(userId).Some? && !teamWriteFails ==>
        db.teams == old(db.teams)[teamId := NewTeam(old(teamName), old(userId).value)]
      ensures old(userId).Some? && !teamWriteFails && (userUpdateFails || old(userId).value !in old(db.users)) ==>
        alert == TEAM_FAILED_ALERT && unchanged(this) && db.users == old(db.users)
      ensures old(userId).Some? && !teamWriteFails && !userUpdateFails && old(userId).value in old(db.users) ==>
        var uid := old(userId).value;
          && db.users == old(db.users)[uid := AddTeam(old(db.users)[uid], teamId)]
          && alert == TEAM_CREATED_ALERT && teamName == "" && userId == old(userId) && !loading
          && (refreshFails ==> teams == old(teams))
          && (!refreshFails ==> teams == ProjectTeams(db.users[uid].teams.value, db.teams))
          && (!refreshFails ==> Doc(teamId, db.teams[teamId]) in teams)
      ensures AllRolesConsistent(old(db.users)) ==> AllRolesConsistent(db.users)
      ensures TeamListsResolve(old(db.users), old(db.teams)) ==> TeamListsResolve(db.users, db.teams)
    {
      if userId.None? {
        return NOT_AUTHENTICATED_ALERT;
      }
      var uid := userId.value;
      if teamWriteFails {
        return TEAM_FAILED_ALERT;
      }
      db.teams := db.teams[teamId := NewTeam(teamName, uid)];
      if userUpdateFails || uid !in db.users {
        return TEAM_FAILED_ALERT;
      }
      db.users := db.users[uid := AddTeam(db.users[uid], teamId)];
      alert := TEAM_CREATED_ALERT;
      teamName := "";
      FetchUserTeams(db, uid, refreshFails);
      if !refreshFails {
        var ids := db.users[uid].teams.value;
        var i :| 0 <= i < |ids| && ids[i] == teamId;
        ProjectTeamsComplete(ids, db.teams, i);
      }
    }
  }
}
