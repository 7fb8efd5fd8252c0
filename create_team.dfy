/** The create-team modal: the same two writes as the dashboard form, then the
    parent's refresh and close callbacks. */
module CreateTeam {
  import opened Store
  import opened TeamsDashboard

  class CreateTeamModal {
    var teamName: string

    constructor ()
      ensures teamName == ""
    {
      teamName := "";
    }

    /** `handleSubmit`. `userId` is the prop, absent when nobody is signed in; `teamId` is the
        id the store assigns. `notified` and `closed` say whether `onTeamCreated` and `onClose`
        were called. The user update fails when it fails remotely or the user record is missing. */
    method HandleSubmit(db: Db, userId: Option<string>, teamId: string,
                        teamWriteFails: bool, userUpdateFails: bool)
      returns (alert: string, notified: bool, closed: bool)
      requires teamId !in db.teams
      modifies this, db`teams, db`users
      ensures userId.None? ==>
        && alert == NOT_AUTHENTICATED_ALERT && !notified && !closed
        && teamName == old(teamName) && db.teams == old(db.teams) && db.users == old(db.users)
      ensures userId.Some? && teamWriteFails ==>
        && alert == TEAM_FAILED_ALERT && !notified && !closed
        && teamName == old(teamName) && db.teams == old(db.teams) && db.users == old(db.users)
      ensures userId.Some? && !teamWriteFails ==>
        db.teams == old(db.teams)[teamId := NewTeam(old(teamName), userId.value)]
      // The team stays written when the second write fails, but the creator's list does not name it.
      ensures userId.Some? && !teamWriteFails && (userUpdateFails || userId.value !in old(db.users)) ==>
        && alert == TEAM_FAILED_ALERT && !notified && !closed
        && teamName == old(teamName) && db.users == old(db.users)
        && (TeamListsResolve(old(db.users), old(db.teams)) && userId.value in db.users ==>
              teamId !in db.users[userId.value].teams.GetOr([]))
      ensures userId.Some? && !teamWriteFails && !userUpdateFails && userId.value in old(db.users) ==>
        && db.users == old(db.users)[userId.value := AddTeam(old(db.users)[userId.value], teamId)]
        && alert == TEAM_CREATED_ALERT && notified && closed && teamName == ""
      ensures AllRolesConsistent(old(db.users)) ==> AllRolesConsistent(db.users)
      ensures TeamListsResolve(old(db.users), old(db.teams)) ==> TeamListsResolve(db.users, db.teams)
    {
      notified, closed := false, false;
      if userId.None? {
        return NOT_AUTHENTICATED_ALERT, notified, closed;
      }
      if teamWriteFails {
        return TEAM_FAILED_ALERT, notified, closed;
      }
      db.teams := db.teams[teamId := NewTeam(teamName, userId.value)];
      if userUpdateFails || userId.value !in db.users {
        return TEAM_FAILED_ALERT, notified, closed;
      }
      db.users := db.users[userId.value := AddTeam(db.users[userId.value], teamId)];
      alert := TEAM_CREATED_ALERT;
      teamName := "";
      notified := true;
      closed := true;
    }
  }
}
