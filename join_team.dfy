/** The join-team modal: add the signed-in user to an existing team's members. */
module JoinTeam {
  import opened Store

  const INVALID_TEAM_ERROR: string := "Invalid team ID"
  const JOIN_FAILED_ERROR: string := "Failed to join team. Please try again."

  /** The team after `employees: arrayUnion(userId)`. */
  function Joined(team: Team, userId: string): (r: Team)
    ensures r.employees.Some? && userId in r.employees.value
    ensures team.employees.GetOr([]) <= r.employees.value
    ensures forall m :: m in r.employees.value ==> m == userId || m in team.employees.GetOr([])
    ensures r.name == team.name && r.admin == team.admin
  {
    team.(employees := Some(ArrayUnion(team.employees, userId)))
  }

  /** Joining twice leaves the same team as joining once. */
  lemma JoinedIdempotent(team: Team, userId: string)
    ensures Joined(Joined(team, userId), userId) == Joined(team, userId)
  {
    ArrayUnionIdempotent(team.employees, userId);
  }

  /** A join never duplicates a member. */
  lemma JoinedNoDuplicates(team: Team, userId: string)
    requires NoDuplicates(team.employees.GetOr([]))
    ensures NoDuplicates(Joined(team, userId).employees.value)
  {
    ArrayUnionNoDuplicates(team.employees, userId);
  }

  /** A member who is already listed changes nothing. */
  lemma JoinedMember(team: Team, userId: string)
    requires team.employees.Some? && userId in team.employees.value
    ensures Joined(team, userId) == team
  {
  }

  class JoinTeamModal {
    var teamId: string
    var joinTeamError: Option<string>
    var isLoading: bool

    constructor ()
      ensures teamId == "" && joinTeamError == None && !isLoading
    {
      teamId, joinTeamError, isLoading := "", None, false;
    }

    /** `handleJoinTeam`. An empty id is not a valid document path, so building the
        reference throws; `userId` is the prop, and an absent one makes the union value
        undefined, which the write rejects. `closed` says whether `onClose` was called. */
    method HandleJoinTeam(db: Db, userId: Option<string>, readFails: bool, writeFails: bool)
      returns (closed: bool)
      modifies this, db`teams
      ensures !isLoading
      ensures old(teamId) == "" || readFails ==>
        && joinTeamError == Some(JOIN_FAILED_ERROR) && !closed
        && teamId == old(teamId) && db.teams == old(db.teams)
      ensures old(teamId) != "" && !readFails && old(teamId) !in old(db.teams) ==>
        && joinTeamError == Some(INVALID_TEAM_ERROR) && !closed
        && teamId == old(teamId) && db.teams == old(db.teams)
      ensures old(teamId) != "" && !readFails && old(teamId) in old(db.teams) && (userId.None? || writeFails) ==>
        && joinTeamError == Some(JOIN_FAILED_ERROR) && !closed
        && teamId == old(teamId) && db.teams == old(db.teams)
      ensures old(teamId) != "" && !readFails && old(teamId) in old(db.teams) && userId.Some? && !writeFails ==>
        && db.teams == old(db.teams)[old(teamId) := Joined(old(db.teams)[old(teamId)], userId.value)]
        && joinTeamError == None && closed && teamId == ""
    {
      joinTeamError := None;
      isLoading := true;
      closed := false;
      if teamId == "" || readFails {
        joinTeamError := Some(JOIN_FAILED_ERROR);
      } else if teamId !in db.teams {
        joinTeamError := Some(INVALID_TEAM_ERROR);
      } else if userId.None? || writeFails {
        joinTeamError := Some(JOIN_FAILED_ERROR);
      } else {
        db.teams := db.teams[teamId := Joined(db.teams[teamId], userId.value)];
        teamId := "";
        closed := true;
      }
      isLoading := false;
    }
  }
}
